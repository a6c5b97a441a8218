/** The glue of the Streamlit app between the client and the table shown:
    fetching one point with its unit conversion and its error record, and
    building the result table of a batch of points. */
module App {
  import opened Python
  import opened Frames
  import opened Stormglass
  import opened Utils

  // ---------------------------------------------------------------------------
  // _fetch_one

  /** The client's default request timeout, in seconds. */
  const TIMEOUT: int := 20

  /** `units.get(quantity, "mps")`. */
  function UnitOf(units: map<string, string>, quantity: string): string {
    if quantity in units then units[quantity] else "mps"
  }

  /** `float(to_knots(v))` when converting, `float(v)` otherwise. */
  function Speed(rt: Runtime, v: Value, convert: bool): Result<real> {
    if convert then FloatOf(rt.parseFloat, AsValue(ToKnots(rt, v))) else FloatOf(rt.parseFloat, v)
  }

  /** When `key` holds something other than None, store its speed under `name`. */
  function WithSpeed(rt: Runtime, values: Dict, key: string, name: string, convert: bool): Result<Dict> {
    match Get(values, key)
    case Some(v) =>
      if v == Null then Ok(values)
      else
        var x :- Speed(rt, v, convert);
        Ok(Set(values, name, Num(x)))
    case None => Ok(values)
  }

  /** The units handling: wind is converted to knots unless its unit is "kn",
      current only when its unit is exactly "mps"; both units default to "mps". */
  function Converted(rt: Runtime, values: Dict, units: map<string, string>): Result<Dict> {
    ConvertedWith(rt, values, UnitOf(units, "wind") != "kn", UnitOf(units, "current") == "mps")
  }

  /** Both speeds, wind first, each converted to knots or not as its flag says. */
  function ConvertedWith(rt: Runtime, values: Dict, windKt: bool, currentKt: bool): Result<Dict> {
    var v :- WithSpeed(rt, values, "windSpeed", "windSpeed_kt", windKt);
    WithSpeed(rt, v, "currentSpeed", "currentSpeed_kt", currentKt)
  }

  /** The body of the `try` in `_fetch_one`, for a timestamp that parsed. */
  function Attempt(rt: Runtime, get: Transport, lat: Value, lon: Value, parsed: DateTime): (r: Result<Dict>)
    ensures r.Ok? ==> FloatOf(rt.parseFloat, lat).Ok? && FloatOf(rt.parseFloat, lon).Ok?
  {
    var la :- FloatOf(rt.parseFloat, lat);
    var lo :- FloatOf(rt.parseFloat, lon);
    AttemptAt(rt, get, la, lo, parsed)
  }

  /** The fetch and the record, once the position is read as two floats. */
  function AttemptAt(rt: Runtime, get: Transport, la: real, lo: real, parsed: DateTime): Result<Dict> {
    var payload := FetchPoint(rt, get, la, lo, parsed);
    var values :- Reading(rt, get, la, lo, parsed);
    Converted(rt, Stamped(values, payload.requestedIso, la, lo), payload.units)
  }

  /** `extract_values` of the fetched payload, asked for the payload's own
      requested hour, with the client's default preferred source. */
  function Reading(rt: Runtime, get: Transport, la: real, lo: real, parsed: DateTime): Result<Dict> {
    var payload := FetchPoint(rt, get, la, lo, parsed);
    Extracted(rt, BLENDED, payload, Some(payload.requestedIso))
  }

  /** The record with the requested hour and position stored into it. */
  function Stamped(values: Dict, requested: string, la: real, lo: real): Dict {
    Set(Set(Set(values, "requested_iso", Str(requested)), "req_lat", Num(la)), "req_lon", Num(lo))
  }

  /** The record `_fetch_one` returns when the `try` raised. */
  function ErrorRecord(f: Failure, tsIso: string, lat: Value, lon: Value): Dict {
    [("error", Str(Describe(f))), ("requested_iso", Str(tsIso)), ("req_lat", lat), ("req_lon", lon)]
  }

  /** `_fetch_one(lat, lon, ts_iso)`: None when the timestamp does not parse,
      the error record when anything after that raises, else the values. */
  function FetchedRecord(rt: Runtime, get: Transport, lat: Value, lon: Value, tsIso: string): (r: Option<Dict>)
    ensures r.None? <==> rt.toUtc(tsIso).None?
  {
    match rt.toUtc(tsIso)
    case None => None
    case Some(parsed) =>
      match Attempt(rt, get, lat, lon, parsed)
      case Ok(values) => Some(values)
      case Err(f) => Some(ErrorRecord(f, tsIso, lat, lon))
  }

  /** `_fetch_one`: a client with the default preferred source fetches the
      point, and the record is completed field by field. The key and debug
      flag only reach the transport. */
  method FetchOne(rt: Runtime, get: Transport, apiKey: Option<string>, debug: bool,
                  lat: Value, lon: Value, tsIso: string) returns (r: Option<Dict>)
    ensures r == FetchedRecord(rt, get, lat, lon, tsIso)
  {
    var client := new StormglassClient(apiKey, TIMEOUT, debug, None);
    var parsed := rt.toUtc(tsIso);
    if parsed.None? {
      return None;
    }
    var values := TryFetch(client, rt, get, lat, lon, parsed.value);
    if values.Err? {
      return Some(ErrorRecord(values.failure, tsIso, lat, lon));
    }
    return Some(values.value);
  }

  /** The `try` block of `_fetch_one`; a raised exception is an `Err`. */
  method TryFetch(client: StormglassClient, rt: Runtime, get: Transport, lat: Value, lon: Value, parsed: DateTime)
    returns (r: Result<Dict>)
    requires client.preferredSource == BLENDED
    ensures r == Attempt(rt, get, lat, lon, parsed)
  {
    var la :- FloatOf(rt.parseFloat, lat);
    var lo :- FloatOf(rt.parseFloat, lon);
    r := FetchAt(client, rt, get, la, lo, parsed);
  }

  /** `fetch_point`, `extract_values` and the completion of the record. */
  method FetchAt(client: StormglassClient, rt: Runtime, get: Transport, la: real, lo: real, parsed: DateTime)
    returns (r: Result<Dict>)
    requires client.preferredSource == BLENDED
    ensures r == AttemptAt(rt, get, la, lo, parsed)
  {
    var payload := FetchPoint(rt, get, la, lo, parsed);
    var requested := payload.requestedIso;
    var values :- client.ExtractValues(rt, payload, Some(requested));
    values := StampRequest(values, requested, la, lo);
    r := ConvertUnits(rt, values, payload.units);
  }

  /** `values["requested_iso"] = ...; values["req_lat"] = ...; values["req_lon"] = ...`. */
  method StampRequest(values: Dict, requested: string, la: real, lo: real) returns (out: Dict)
    ensures out == Stamped(values, requested, la, lo)
  {
    out := values;
    out := Set(out, "requested_iso", Str(requested));
    out := Set(out, "req_lat", Num(la));
    out := Set(out, "req_lon", Num(lo));
  }

  /** The units handling of `_fetch_one`, one speed after the other. */
  method ConvertUnits(rt: Runtime, values: Dict, units: map<string, string>) returns (r: Result<Dict>)
    ensures r == Converted(rt, values, units)
  {
    var windUnit := UnitOf(units, "wind");
    var currentUnit := UnitOf(units, "current");
    var out := values;
    var wind := Get(out, "windSpeed");
    if wind.Some? && wind.value != Null {
      var kt :- Speed(rt, wind.value, windUnit != "kn");
      out := Set(out, "windSpeed_kt", Num(kt));
    }
    assert WithSpeed(rt, values, "windSpeed", "windSpeed_kt", windUnit != "kn") == Ok(out);
    var current := Get(out, "currentSpeed");
    if current.Some? && current.value != Null {
      var kt :- Speed(rt, current.value, currentUnit == "mps");
      out := Set(out, "currentSpeed_kt", Num(kt));
    }
    return Ok(out);
  }

  /** A value the record can hold for a speed: absent, None or a number. */
  predicate NumberOrNone(o: Option<Value>) {
    o.None? || o.value == Null || o.value.Num?
  }

  /** The speed in knots stored for a speed field, if any: converted when
      `convert` holds, copied otherwise. */
  function KnotsOf(rt: Runtime, o: Option<Value>, convert: bool): (r: Option<Value>)
    ensures r.Some? <==> o.Some? && o.value.Num?
    ensures r.Some? && !convert ==> r == o
  {
    match o
    case Some(Num(x)) => Some(Num(if convert then ToKnots(rt, Num(x)).value else x))
    case _ => None
  }

  /** `windSpeed_kt` is stored exactly when `windSpeed` holds a number: in
      knots unless the wind unit is "kn", unchanged if it is. `currentSpeed_kt`
      likewise, but converted only when the current unit is exactly "mps".
      Missing units count as "mps"; no other field changes. */
  lemma ConvertedRules(rt: Runtime, values: Dict, units: map<string, string>, k: string)
    requires NumberOrNone(Get(values, "windSpeed")) && NumberOrNone(Get(values, "currentSpeed"))
    ensures Converted(rt, values, units).Ok?
    ensures Get(Converted(rt, values, units).value, k) ==
              if k == "windSpeed_kt" && KnotsOf(rt, Get(values, "windSpeed"), true).Some?
              then KnotsOf(rt, Get(values, "windSpeed"), UnitOf(units, "wind") != "kn")
              else if k == "currentSpeed_kt" && KnotsOf(rt, Get(values, "currentSpeed"), true).Some?
              then KnotsOf(rt, Get(values, "currentSpeed"), UnitOf(units, "current") == "mps")
              else Get(values, k)
  {
    ConvertedWithAt(rt, values, UnitOf(units, "wind") != "kn", UnitOf(units, "current") == "mps", k);
  }

  lemma ConvertedWithAt(rt: Runtime, values: Dict, windKt: bool, currentKt: bool, k: string)
    requires NumberOrNone(Get(values, "windSpeed")) && NumberOrNone(Get(values, "currentSpeed"))
    ensures ConvertedWith(rt, values, windKt, currentKt).Ok?
    ensures Get(ConvertedWith(rt, values, windKt, currentKt).value, k) ==
              if k == "windSpeed_kt" && KnotsOf(rt, Get(values, "windSpeed"), true).Some?
              then KnotsOf(rt, Get(values, "windSpeed"), windKt)
              else if k == "currentSpeed_kt" && KnotsOf(rt, Get(values, "currentSpeed"), true).Some?
              then KnotsOf(rt, Get(values, "currentSpeed"), currentKt)
              else Get(values, k)
  {
    WithSpeedAt(rt, values, "windSpeed", "windSpeed_kt", windKt, "currentSpeed");
    WithSpeedAt(rt, values, "windSpeed", "windSpeed_kt", windKt, k);
    var v := WithSpeed(rt, values, "windSpeed", "windSpeed_kt", windKt).value;
    WithSpeedAt(rt, v, "currentSpeed", "currentSpeed_kt", currentKt, k);
  }

  /** One speed: `name` gets the speed of `key` when `key` holds a number;
      every other field is unchanged. */
  lemma WithSpeedAt(rt: Runtime, values: Dict, key: string, name: string, convert: bool, k: string)
    requires NumberOrNone(Get(values, key))
    ensures WithSpeed(rt, values, key, name, convert).Ok?
    ensures Get(WithSpeed(rt, values, key, name, convert).value, k) ==
              if k == name && KnotsOf(rt, Get(values, key), true).Some? then KnotsOf(rt, Get(values, key), convert)
              else Get(values, k)
  {
    var o := Get(values, key);
    if o.None? || o.value == Null {
      assert WithSpeed(rt, values, key, name, convert) == Ok(values);
      assert KnotsOf(rt, o, true) == None;
    } else {
      var x := o.value.x;
      var kt := if convert then ToKnots(rt, Num(x)).value else x;
      assert Speed(rt, Num(x), convert) == Ok(kt);
      assert WithSpeed(rt, values, key, name, convert) == Ok(Set(values, name, Num(kt)));
      assert KnotsOf(rt, o, convert) == Some(Num(kt));
    }
  }

  /** The units a payload reports are those of metres per second, so both
      speeds are converted to knots. */
  lemma SiUnitsConvertBoth()
    ensures UnitOf(SI_UNITS, "wind") != "kn" && UnitOf(SI_UNITS, "current") == "mps"
  {
  }

  /** A successful fetch, field by field: the requested hour as text, the
      position read as floats, both speeds in knots where they are numbers (the
      payload's units are SI), and every other field, `iso_time` and the
      variables among them, as extracted; so there is no error field. */
  lemma AttemptAtRecord(rt: Runtime, get: Transport, la: real, lo: real, parsed: DateTime, k: string)
    requires Reading(rt, get, la, lo, parsed).Ok?
    ensures AttemptAt(rt, get, la, lo, parsed).Ok?
    ensures var values := Reading(rt, get, la, lo, parsed).value;
            Get(AttemptAt(rt, get, la, lo, parsed).value, k) ==
              if k == "requested_iso" then Some(Str(rt.isoformat(NearestHour(parsed))))
              else if k == "req_lat" then Some(Num(la))
              else if k == "req_lon" then Some(Num(lo))
              else if k == "windSpeed_kt" then KnotsOf(rt, Get(values, "windSpeed"), true)
              else if k == "currentSpeed_kt" then KnotsOf(rt, Get(values, "currentSpeed"), true)
              else Get(values, k)
  {
    ReadingShape(rt, get, la, lo, parsed);
    AttemptAtCompletes(rt, get, la, lo, parsed);
    CompletedAt(rt, Reading(rt, get, la, lo, parsed).value, rt.isoformat(NearestHour(parsed)), la, lo, k);
  }

  /** What `extract_values` yields: `iso_time` and the variables, the speeds
      each a number or None. */
  lemma ReadingShape(rt: Runtime, get: Transport, la: real, lo: real, parsed: DateTime)
    requires Reading(rt, get, la, lo, parsed).Ok?
    ensures var values := Reading(rt, get, la, lo, parsed).value;
            && Keys(values) == ["iso_time"] + VARIABLES && Distinct(Keys(values))
            && NumberOrNone(Get(values, "windSpeed")) && NumberOrNone(Get(values, "currentSpeed"))
  {
    var payload := FetchPoint(rt, get, la, lo, parsed);
    ExtractedKeys(rt, BLENDED, payload, Some(payload.requestedIso));
    ExtractedNumeric(rt, BLENDED, payload, Some(payload.requestedIso), "windSpeed");
    ExtractedNumeric(rt, BLENDED, payload, Some(payload.requestedIso), "currentSpeed");
  }

  /** The fetch continues with the record stamped and converted in SI units. */
  lemma AttemptAtCompletes(rt: Runtime, get: Transport, la: real, lo: real, parsed: DateTime)
    requires Reading(rt, get, la, lo, parsed).Ok?
    ensures AttemptAt(rt, get, la, lo, parsed) ==
            Converted(rt, Stamped(Reading(rt, get, la, lo, parsed).value, rt.isoformat(NearestHour(parsed)), la, lo), SI_UNITS)
  {
  }

  /** Completing an extracted record in SI units, field by field. */
  lemma CompletedAt(rt: Runtime, values: Dict, requested: string, la: real, lo: real, k: string)
    requires Keys(values) == ["iso_time"] + VARIABLES
    requires NumberOrNone(Get(values, "windSpeed")) && NumberOrNone(Get(values, "currentSpeed"))
    ensures Converted(rt, Stamped(values, requested, la, lo), SI_UNITS).Ok?
    ensures Get(Converted(rt, Stamped(values, requested, la, lo), SI_UNITS).value, k) ==
              if k == "requested_iso" then Some(Str(requested))
              else if k == "req_lat" then Some(Num(la))
              else if k == "req_lon" then Some(Num(lo))
              else if k == "windSpeed_kt" then KnotsOf(rt, Get(values, "windSpeed"), true)
              else if k == "currentSpeed_kt" then KnotsOf(rt, Get(values, "currentSpeed"), true)
              else Get(values, k)
  {
    KnotsFieldsAreNew(values);
    var st := Stamped(values, requested, la, lo);
    StampedAt(values, requested, la, lo, "windSpeed");
    StampedAt(values, requested, la, lo, "currentSpeed");
    StampedAt(values, requested, la, lo, k);
    SiUnitsConvertBoth();
    ConvertedWithAt(rt, st, true, true, k);
  }

  /** A record as extracted has no knots fields and no error yet. */
  lemma KnotsFieldsAreNew(values: Dict)
    requires Keys(values) == ["iso_time"] + VARIABLES
    ensures Get(values, "windSpeed_kt").None? && Get(values, "currentSpeed_kt").None? && Get(values, "error").None?
  {
    NewFieldNames();
  }

  lemma NewFieldNames()
    ensures "windSpeed_kt" !in ["iso_time"] + VARIABLES
    ensures "currentSpeed_kt" !in ["iso_time"] + VARIABLES
    ensures "error" !in ["iso_time"] + VARIABLES
  {
  }

  /** Stamping sets the three request fields and changes nothing else. */
  lemma StampedAt(values: Dict, requested: string, la: real, lo: real, k: string)
    ensures Get(Stamped(values, requested, la, lo), k) ==
              if k == "requested_iso" then Some(Str(requested))
              else if k == "req_lat" then Some(Num(la))
              else if k == "req_lon" then Some(Num(lo))
              else Get(values, k)
  {
  }

  /** `_fetch_one`'s outcomes: None exactly when the timestamp does not parse;
      otherwise the first exception raised (reading the latitude, the
      longitude, then extracting the record) gives the error record carrying
      it, and when none is raised the record holds no error, since the units
      handling cannot raise on the numbers `extract_values` yields. */
  lemma FetchedOutcomes(rt: Runtime, get: Transport, lat: Value, lon: Value, tsIso: string)
    ensures FetchedRecord(rt, get, lat, lon, tsIso).None? <==> rt.toUtc(tsIso).None?
    ensures rt.toUtc(tsIso).Some? ==>
              var p := rt.toUtc(tsIso).value;
              var la, lo := FloatOf(rt.parseFloat, lat), FloatOf(rt.parseFloat, lon);
              var r := FetchedRecord(rt, get, lat, lon, tsIso);
              && (la.Err? ==> r == Some(ErrorRecord(la.failure, tsIso, lat, lon)))
              && (la.Ok? && lo.Err? ==> r == Some(ErrorRecord(lo.failure, tsIso, lat, lon)))
              && (la.Ok? && lo.Ok? && Reading(rt, get, la.value, lo.value, p).Err? ==>
                    r == Some(ErrorRecord(Reading(rt, get, la.value, lo.value, p).failure, tsIso, lat, lon)))
              && (la.Ok? && lo.Ok? && Reading(rt, get, la.value, lo.value, p).Ok? ==>
                    r.Some? && AttemptAt(rt, get, la.value, lo.value, p) == Ok(r.value) && Get(r.value, "error").None?)
  {
    if rt.toUtc(tsIso).Some? {
      var p := rt.toUtc(tsIso).value;
      var la, lo := FloatOf(rt.parseFloat, lat), FloatOf(rt.parseFloat, lon);
      if la.Ok? && lo.Ok? && Reading(rt, get, la.value, lo.value, p).Ok? {
        AttemptAtHasNoError(rt, get, la.value, lo.value, p);
      }
    }
  }

  /** A fetch that extracted a record completes it without an error field. */
  lemma AttemptAtHasNoError(rt: Runtime, get: Transport, la: real, lo: real, parsed: DateTime)
    requires Reading(rt, get, la, lo, parsed).Ok?
    ensures AttemptAt(rt, get, la, lo, parsed).Ok?
    ensures Get(AttemptAt(rt, get, la, lo, parsed).value, "error").None?
  {
    ReadingShape(rt, get, la, lo, parsed);
    AttemptAtCompletes(rt, get, la, lo, parsed);
    CompletedHasNoError(rt, Reading(rt, get, la, lo, parsed).value, rt.isoformat(NearestHour(parsed)), la, lo);
  }

  /** Completing an extracted record adds no error field. */
  lemma CompletedHasNoError(rt: Runtime, values: Dict, requested: string, la: real, lo: real)
    requires Keys(values) == ["iso_time"] + VARIABLES
    requires NumberOrNone(Get(values, "windSpeed")) && NumberOrNone(Get(values, "currentSpeed"))
    ensures Converted(rt, Stamped(values, requested, la, lo), SI_UNITS).Ok?
    ensures Get(Converted(rt, Stamped(values, requested, la, lo), SI_UNITS).value, "error").None?
  {
    KnotsFieldsAreNew(values);
    CompletedAt(rt, values, requested, la, lo, "error");
  }

  /** When the transport fails, `fetch_point` degrades to an empty reply and
      `_fetch_one` returns a record of None values with no error and no knots
      fields, not an error record. */
  lemma TransportFailureRecord(rt: Runtime, get: Transport, la: real, lo: real, parsed: DateTime, k: string)
    requires get(Request(rt, la, lo, parsed)).None?
    ensures AttemptAt(rt, get, la, lo, parsed).Ok?
    ensures var out := AttemptAt(rt, get, la, lo, parsed).value;
            && Get(out, "error").None?
            && Get(out, "windSpeed_kt").None? && Get(out, "currentSpeed_kt").None?
            && (k in ["iso_time"] + VARIABLES ==> Get(out, k) == Some(Null))
  {
    var payload := FetchPoint(rt, get, la, lo, parsed);
    TransportFailureGivesBlankRecord(rt, get, BLENDED, la, lo, parsed, Some(payload.requestedIso));
    AttemptAtCompletes(rt, get, la, lo, parsed);
    BlankCompleted(rt, rt.isoformat(NearestHour(parsed)), la, lo, k);
  }

  /** The blank record, completed: no error, no knots fields, every tracked
      key None. */
  lemma BlankCompleted(rt: Runtime, requested: string, la: real, lo: real, k: string)
    ensures Converted(rt, Stamped(BlankRecord(), requested, la, lo), SI_UNITS).Ok?
    ensures var out := Converted(rt, Stamped(BlankRecord(), requested, la, lo), SI_UNITS).value;
            && Get(out, "error").None?
            && Get(out, "windSpeed_kt").None? && Get(out, "currentSpeed_kt").None?
            && (k in ["iso_time"] + VARIABLES ==> Get(out, k) == Some(Null))
  {
    var b := BlankRecord();
    BlankRecordAt("windSpeed");
    BlankRecordAt("currentSpeed");
    assert NumberOrNone(Get(b, "windSpeed")) && NumberOrNone(Get(b, "currentSpeed"));
    KnotsFieldsAreNew(b);
    CompletedAt(rt, b, requested, la, lo, "error");
    var out := Converted(rt, Stamped(b, requested, la, lo), SI_UNITS).value;
    assert Get(out, "windSpeed_kt").None? by {
      CompletedAt(rt, b, requested, la, lo, "windSpeed_kt");
    }
    assert Get(out, "currentSpeed_kt").None? by {
      CompletedAt(rt, b, requested, la, lo, "currentSpeed_kt");
    }
    if k in ["iso_time"] + VARIABLES {
      BlankRecordAt(k);
      NewKeysAreNotTracked(k);
      CompletedAt(rt, b, requested, la, lo, k);
    }
  }

  /** The fields `_fetch_one` adds are none of the extracted ones. */
  lemma NewKeysAreNotTracked(k: string)
    requires k in ["iso_time"] + VARIABLES
    ensures k != "requested_iso" && k != "req_lat" && k != "req_lon" && k != "windSpeed_kt" && k != "currentSpeed_kt"
  {
  }

  // ---------------------------------------------------------------------------
  // enrich_df: the column names

  /** The clearer names `enrich_df` gives to the Stormglass variables. */
  const RENAME_MAP: map<string, string> := map[
    "windDirection" := "windDir_deg_from",
    "waveHeight" := "sigWaveHeight_m",
    "waveDirection" := "sigWaveDir_deg_from",
    "windWaveHeight" := "windWaveHeight_m",
    "windWaveDirection" := "windWaveDir_deg_from",
    "swellDirection" := "swellDir_deg_from",
    "swellHeight" := "swellHeight_m",
    "currentDirection" := "currentDir_deg_to"
  ]

  /** The columns shown first, in this order, when the table has them. */
  const PREFERRED_COLS: seq<string> := [
    "timestamp_utc", "requested_iso", "iso_time", "lat", "lon",
    "windSpeed_kt", "windDir_deg_from",
    "sigWaveHeight_m", "sigWaveDir_deg_from",
    "windWaveHeight_m", "windWaveDir_deg_from",
    "swellHeight_m", "swellDir_deg_from",
    "currentSpeed_kt", "currentDir_deg_to"
  ]

  lemma PreferredDistinct()
    ensures Distinct(PREFERRED_COLS)
  {
  }

  /** `[c for c in xs if c in ys]` when `keep` holds, `[c for c in xs if c
      not in ys]` otherwise. */
  function Where(xs: seq<string>, ys: seq<string>, keep: bool): (r: seq<string>)
    ensures |r| <= |xs|
  {
    if xs == [] then [] else (if (xs[0] in ys) == keep then [xs[0]] else []) + Where(xs[1..], ys, keep)
  }

  /** A comprehension keeps exactly the names that pass, none twice when the
      list has none twice. */
  lemma {:induction false} WhereMembers(xs: seq<string>, ys: seq<string>, keep: bool)
    ensures forall c :: c in Where(xs, ys, keep) <==> c in xs && (c in ys) == keep
    ensures Distinct(xs) ==> Distinct(Where(xs, ys, keep))
  {
    if xs != [] {
      WhereMembers(xs[1..], ys, keep);
      assert forall c :: c in xs <==> c == xs[0] || c in xs[1..];
    }
  }

  /** `a` is `b` with some entries left out: the entries of `a` stand in `b`
      in the same order. */
  predicate Subsequence(a: seq<string>, b: seq<string>)
    decreases |b|
  {
    if a == [] then true
    else if b == [] then false
    else (a[0] == b[0] && Subsequence(a[1..], b[1..])) || Subsequence(a, b[1..])
  }

  /** A comprehension keeps the order of the list. */
  lemma {:induction false} WhereOrder(xs: seq<string>, ys: seq<string>, keep: bool)
    ensures Subsequence(Where(xs, ys, keep), xs)
  {
    if xs != [] {
      WhereOrder(xs[1..], ys, keep);
      var r := Where(xs, ys, keep);
      if (xs[0] in ys) == keep {
        assert r[0] == xs[0] && r[1..] == Where(xs[1..], ys, keep);
      } else if r != [] {
        assert r == Where(xs[1..], ys, keep);
      }
    }
  }

  /** The names that pass and the names that fail make up the list. */
  lemma {:induction false} WhereSplit(xs: seq<string>, ys: seq<string>)
    ensures multiset(Where(xs, ys, true)) + multiset(Where(xs, ys, false)) == multiset(xs)
  {
    if xs != [] {
      var h, t := xs[0], xs[1..];
      WhereSplit(t, ys);
      assert xs == [h] + t;
      if h in ys {
        assert Where(xs, ys, true) == [h] + Where(t, ys, true);
        assert Where(xs, ys, false) == Where(t, ys, false);
      } else {
        assert Where(xs, ys, true) == Where(t, ys, true);
        assert Where(xs, ys, false) == [h] + Where(t, ys, false);
      }
    }
  }

  /** In a list without repeats each member occurs once. */
  lemma {:induction false} DistinctOccurrences(s: seq<string>, c: string)
    requires Distinct(s)
    ensures multiset(s)[c] == if c in s then 1 else 0
  {
    if s != [] {
      DistinctOccurrences(s[1..], c);
      assert s == [s[0]] + s[1..];
      assert s[0] !in s[1..];
    }
  }

  /** Two lists without repeats and with the same members are permutations
      of each other. */
  lemma SameMembers(a: seq<string>, b: seq<string>)
    requires Distinct(a) && Distinct(b)
    requires forall c :: c in a <==> c in b
    ensures multiset(a) == multiset(b)
  {
    forall c
      ensures multiset(a)[c] == multiset(b)[c]
    {
      DistinctOccurrences(a, c);
      DistinctOccurrences(b, c);
    }
  }

  /** `existing`: the preferred columns the table has, in preferred order. */
  function Existing(cols: seq<string>): seq<string> {
    ExistingOf(PREFERRED_COLS, cols)
  }

  /** `others`: the table's other columns, in table order. */
  function Others(cols: seq<string>): seq<string> {
    OthersOf(PREFERRED_COLS, cols)
  }

  /** `existing + others`, the column order of the result. */
  function Ordered(cols: seq<string>): seq<string> {
    Existing(cols) + Others(cols)
  }

  function ExistingOf(pref: seq<string>, cols: seq<string>): seq<string> {
    Where(pref, cols, true)
  }

  function OthersOf(pref: seq<string>, cols: seq<string>): seq<string> {
    Where(cols, ExistingOf(pref, cols), false)
  }

  /** The column order holds the table's columns and no others. */
  lemma OrderedMembers(cols: seq<string>)
    ensures forall c :: c in Ordered(cols) <==> c in cols
  {
    OrderedOfMembers(PREFERRED_COLS, cols);
  }

  /** The preferred columns the table has come first, in preferred order, then
      every other column, in table order. */
  lemma OrderedLayout(cols: seq<string>)
    ensures forall c :: c in Existing(cols) <==> c in PREFERRED_COLS && c in cols
    ensures forall c :: c in Others(cols) <==> c in cols && c !in PREFERRED_COLS
    ensures Subsequence(Existing(cols), PREFERRED_COLS) && Subsequence(Others(cols), cols)
  {
    OrderedOfLayout(PREFERRED_COLS, cols);
  }

  /** The reordering is a permutation of the columns: none lost, none
      repeated. */
  lemma OrderedIsPermutation(cols: seq<string>)
    requires Distinct(cols)
    ensures multiset(Ordered(cols)) == multiset(cols)
    ensures Distinct(Ordered(cols))
  {
    PreferredDistinct();
    OrderedOfIsPermutation(PREFERRED_COLS, cols);
  }

  lemma OrderedOfMembers(pref: seq<string>, cols: seq<string>)
    ensures forall c :: c in ExistingOf(pref, cols) + OthersOf(pref, cols) <==> c in cols
  {
    WhereMembers(pref, cols, true);
    WhereMembers(cols, ExistingOf(pref, cols), false);
  }

  lemma OrderedOfLayout(pref: seq<string>, cols: seq<string>)
    ensures forall c :: c in ExistingOf(pref, cols) <==> c in pref && c in cols
    ensures forall c :: c in OthersOf(pref, cols) <==> c in cols && c !in pref
    ensures Subsequence(ExistingOf(pref, cols), pref) && Subsequence(OthersOf(pref, cols), cols)
  {
    WhereMembers(pref, cols, true);
    WhereMembers(cols, ExistingOf(pref, cols), false);
    WhereOrder(pref, cols, true);
    WhereOrder(cols, ExistingOf(pref, cols), false);
  }

  lemma OrderedOfIsPermutation(pref: seq<string>, cols: seq<string>)
    requires Distinct(pref) && Distinct(cols)
    ensures multiset(ExistingOf(pref, cols) + OthersOf(pref, cols)) == multiset(cols)
    ensures Distinct(ExistingOf(pref, cols) + OthersOf(pref, cols))
  {
    var e := ExistingOf(pref, cols);
    WhereMembers(pref, cols, true);
    WhereMembers(cols, e, true);
    WhereMembers(cols, e, false);
    WhereSplit(cols, e);
    SameMembers(Where(cols, e, true), e);
    var r := e + OthersOf(pref, cols);
    forall i, j | 0 <= i < j < |r|
      ensures r[i] != r[j]
    {
      if i < |e| <= j {
        assert r[i] in e && r[j] in OthersOf(pref, cols);
      }
    }
  }

  // ---------------------------------------------------------------------------
  // enrich_df: the fields of a record

  /** The fields a record of `_fetch_one` can have. */
  predicate FetchedField(k: string) {
    k in ["iso_time"] + VARIABLES
    || k in ["error", "requested_iso", "req_lat", "req_lon", "windSpeed_kt", "currentSpeed_kt"]
  }

  /** The fields a row of `enrich_df` can have: the three taken from the input
      and those of the fetched record. */
  predicate RowField(k: string) {
    k in ["timestamp_utc", "lat", "lon"] || FetchedField(k)
  }

  /** Storing a speed adds at most its knots field and keeps keys distinct. */
  lemma WithSpeedKeys(rt: Runtime, values: Dict, key: string, name: string, convert: bool)
    requires WithSpeed(rt, values, key, name, convert).Ok?
    ensures var out := WithSpeed(rt, values, key, name, convert).value;
            && (forall k :: k in Keys(out) ==> k in Keys(values) || k == name)
            && (Distinct(Keys(values)) ==> Distinct(Keys(out)))
  {
    var v := Get(values, key);
    if v.Some? && v.value != Null {
      var x := Speed(rt, v.value, convert).value;
      assert WithSpeed(rt, values, key, name, convert).value == Set(values, name, Num(x));
      SetKeys(values, name, Num(x));
    }
  }

  lemma SetKeys(d: Dict, name: string, v: Value)
    ensures forall k :: k in Keys(Set(d, name, v)) ==> k in Keys(d) || k == name
    ensures Distinct(Keys(d)) ==> Distinct(Keys(Set(d, name, v)))
  {
    if Distinct(Keys(d)) {
      SetKeepsDistinct(d, name, v);
    }
  }

  /** Stamping adds the three request fields, each once. */
  lemma StampedKeys(values: Dict, requested: string, la: real, lo: real)
    ensures forall k :: k in Keys(Stamped(values, requested, la, lo)) ==>
              k in Keys(values) || k in ["requested_iso", "req_lat", "req_lon"]
    ensures Distinct(Keys(values)) ==> Distinct(Keys(Stamped(values, requested, la, lo)))
  {
    var s1 := Set(values, "requested_iso", Str(requested));
    var s2 := Set(s1, "req_lat", Num(la));
    SetKeys(values, "requested_iso", Str(requested));
    SetKeys(s1, "req_lat", Num(la));
    SetKeys(s2, "req_lon", Num(lo));
  }

  /** The units handling adds at most the two knots fields, each once. */
  lemma ConvertedKeys(rt: Runtime, values: Dict, windKt: bool, currentKt: bool)
    requires NumberOrNone(Get(values, "windSpeed")) && NumberOrNone(Get(values, "currentSpeed"))
    ensures ConvertedWith(rt, values, windKt, currentKt).Ok?
    ensures var out := ConvertedWith(rt, values, windKt, currentKt).value;
            && (forall k :: k in Keys(out) ==> k in Keys(values) || k in ["windSpeed_kt", "currentSpeed_kt"])
            && (Distinct(Keys(values)) ==> Distinct(Keys(out)))
  {
    WithSpeedOther(rt, values, "windSpeed", "windSpeed_kt", windKt, "currentSpeed");
    var w := WithSpeed(rt, values, "windSpeed", "windSpeed_kt", windKt).value;
    WithSpeedOther(rt, w, "currentSpeed", "currentSpeed_kt", currentKt, "");
    WithSpeedKeys(rt, values, "windSpeed", "windSpeed_kt", windKt);
    WithSpeedKeys(rt, w, "currentSpeed", "currentSpeed_kt", currentKt);
  }

  /** Storing one speed cannot raise on a number and leaves the other fields
      alone. */
  lemma WithSpeedOther(rt: Runtime, values: Dict, key: string, name: string, convert: bool, k: string)
    requires NumberOrNone(Get(values, key)) && k != name
    ensures WithSpeed(rt, values, key, name, convert).Ok?
    ensures Get(WithSpeed(rt, values, key, name, convert).value, k) == Get(values, k)
  {
    var o := Get(values, key);
    if o.Some? && o.value != Null {
      assert Speed(rt, o.value, convert).Ok?;
    }
  }

  /** Completing an extracted record adds the three request fields and at most
      the two knots fields, each once. */
  lemma CompletedKeys(rt: Runtime, values: Dict, requested: string, la: real, lo: real)
    requires Keys(values) == ["iso_time"] + VARIABLES && Distinct(Keys(values))
    requires NumberOrNone(Get(values, "windSpeed")) && NumberOrNone(Get(values, "currentSpeed"))
    ensures Converted(rt, Stamped(values, requested, la, lo), SI_UNITS).Ok?
    ensures var out := Converted(rt, Stamped(values, requested, la, lo), SI_UNITS).value;
            Distinct(Keys(out)) && forall k :: k in Keys(out) ==> FetchedField(k)
  {
    var st := Stamped(values, requested, la, lo);
    StampedAt(values, requested, la, lo, "windSpeed");
    StampedAt(values, requested, la, lo, "currentSpeed");
    StampedKeys(values, requested, la, lo);
    SiUnitsConvertBoth();
    assert Converted(rt, st, SI_UNITS) == ConvertedWith(rt, st, true, true);
    ConvertedKeys(rt, st, true, true);
  }

  /** The record `_fetch_one` returns has keys drawn from its fields, each
      once. */
  lemma FetchedKeys(rt: Runtime, get: Transport, lat: Value, lon: Value, tsIso: string)
    requires FetchedRecord(rt, get, lat, lon, tsIso).Some?
    ensures var res := FetchedRecord(rt, get, lat, lon, tsIso).value;
            Distinct(Keys(res)) && forall k :: k in Keys(res) ==> FetchedField(k)
  {
    var p := rt.toUtc(tsIso).value;
    var a := Attempt(rt, get, lat, lon, p);
    if a.Ok? {
      var la, lo := FloatOf(rt.parseFloat, lat).value, FloatOf(rt.parseFloat, lon).value;
      assert a == AttemptAt(rt, get, la, lo, p);
      AttemptAtKeys(rt, get, la, lo, p);
    } else {
      ErrorRecordKeys(a.failure, tsIso, lat, lon);
    }
  }

  lemma ErrorRecordKeys(f: Failure, tsIso: string, lat: Value, lon: Value)
    ensures var e := ErrorRecord(f, tsIso, lat, lon);
            Distinct(Keys(e)) && forall k :: k in Keys(e) ==> FetchedField(k)
  {
    var e := ErrorRecord(f, tsIso, lat, lon);
    assert Keys(e) == ["error", "requested_iso", "req_lat", "req_lon"];
  }

  lemma AttemptAtKeys(rt: Runtime, get: Transport, la: real, lo: real, parsed: DateTime)
    requires AttemptAt(rt, get, la, lo, parsed).Ok?
    ensures var out := AttemptAt(rt, get, la, lo, parsed).value;
            Distinct(Keys(out)) && forall k :: k in Keys(out) ==> FetchedField(k)
  {
    assert Reading(rt, get, la, lo, parsed).Ok?;
    ReadingShape(rt, get, la, lo, parsed);
    AttemptAtCompletes(rt, get, la, lo, parsed);
    CompletedKeys(rt, Reading(rt, get, la, lo, parsed).value, rt.isoformat(NearestHour(parsed)), la, lo);
  }

  // ---------------------------------------------------------------------------
  // enrich_df: the rows

  /** `r[name]` of a row that `iterrows` yields: a KeyError when the table has no
      such column. */
  function Cell(df: Table, i: nat, name: string): (r: Result<Value>)
    requires WellFormed(df) && i < |df.rows|
    ensures r.Ok? <==> name in df.columns
  {
    if name in df.columns then Ok(df.rows[i][IndexOf(df.columns, name)]) else Err(MissingKey("'" + name + "'"))
  }

  /** `ts.isoformat()`; only a datetime has the method. */
  function IsoOf(rt: Runtime, v: Value): (r: Result<string>)
    ensures r.Ok? <==> v.Stamp?
  {
    if v.Stamp? then Ok(rt.isoformat(v.t)) else Err(NoAttribute(TypeName(v), "isoformat"))
  }

  /** The fields a row of the result starts from. */
  function Base(ts: Value, lat: Value, lon: Value): Dict {
    [("timestamp_utc", ts), ("lat", lat), ("lon", lon)]
  }

  /** The record `enrich_df` appends for row `i`: the row's `lat`, `lon` and
      `parsed_ts` are read in that order (a missing one raises), `{}` when the
      fetch gives None, else the base fields updated by the fetched record. */
  function RowRecord(rt: Runtime, get: Transport, df: Table, i: nat): (r: Result<Dict>)
    requires WellFormed(df) && i < |df.rows|
    ensures r.Err? <==> "lat" !in df.columns || "lon" !in df.columns || "parsed_ts" !in df.columns
                        || !df.rows[i][IndexOf(df.columns, "parsed_ts")].Stamp?
  {
    var lat :- Cell(df, i, "lat");
    var lon :- Cell(df, i, "lon");
    var ts :- Cell(df, i, "parsed_ts");
    var iso :- IsoOf(rt, ts);
    match FetchedRecord(rt, get, lat, lon, iso)
    case None => Ok([])
    case Some(res) => Ok(Update(Base(ts, lat, lon), res))
  }

  /** The outcome of every row, in row order. */
  function RowResults(rt: Runtime, get: Transport, df: Table): (rs: seq<Result<Dict>>)
    requires WellFormed(df)
    ensures |rs| == |df.rows|
  {
    seq(|df.rows|, i requires 0 <= i < |df.rows| => RowRecord(rt, get, df, i))
  }

  /** The loop of `enrich_df`: the records of the rows in order, or the
      exception of the first row that raised. */
  function Collect(rs: seq<Result<Dict>>): (r: Result<seq<Dict>>)
    ensures r.Ok? ==> |r.value| == |rs|
  {
    if rs == [] then Ok([])
    else
      var before :- Collect(rs[..|rs| - 1]);
      var rec :- rs[|rs| - 1];
      Ok(before + [rec])
  }

  /** One record per row, in row order, when no row raises; otherwise the
      exception of the first row that does. */
  lemma {:induction false} CollectRows(rs: seq<Result<Dict>>)
    ensures Collect(rs).Ok? <==> forall i :: 0 <= i < |rs| ==> rs[i].Ok?
    ensures Collect(rs).Ok? ==> |Collect(rs).value| == |rs| && forall i :: 0 <= i < |rs| ==> rs[i] == Ok(Collect(rs).value[i])
    ensures Collect(rs).Err? ==>
              exists i :: 0 <= i < |rs| && rs[i].Err? && Collect(rs) == Err(rs[i].failure)
                && forall j :: 0 <= j < i ==> rs[j].Ok?
  {
    if rs != [] {
      var n := |rs| - 1;
      var before := rs[..n];
      CollectRows(before);
      assert forall i :: 0 <= i < n ==> before[i] == rs[i];
      if Collect(before).Err? {
        var i :| 0 <= i < n && before[i].Err? && Collect(before) == Err(before[i].failure)
                 && forall j :: 0 <= j < i ==> before[j].Ok?;
        assert rs[i].Err? && Collect(rs) == Err(rs[i].failure);
      }
    }
  }

  /** One more row of the loop. */
  lemma CollectStep(rs: seq<Result<Dict>>, n: nat, rows: seq<Dict>)
    requires n < |rs| && Collect(rs[..n]) == Ok(rows)
    ensures Collect(rs[..n + 1]) == match rs[n] case Ok(rec) => Ok(rows + [rec]) case Err(f) => Err(f)
  {
    assert rs[..n + 1][..n] == rs[..n];
  }

  /** Once a row raises, the rows after it are not looked at. */
  lemma {:induction false} CollectStopsAtError(rs: seq<Result<Dict>>, n: nat, m: nat)
    requires n < m <= |rs| && Collect(rs[..n]).Ok? && rs[n].Err?
    ensures Collect(rs[..m]) == Err(rs[n].failure)
    decreases m
  {
    if m == n + 1 {
      CollectStep(rs, n, Collect(rs[..n]).value);
    } else {
      CollectStopsAtError(rs, n, m - 1);
      assert rs[..m][..m - 1] == rs[..m - 1];
    }
  }

  /** A fetched record merged over the base fields keeps them first, in
      their order. */
  lemma UpdatedBasePrefix(ts: Value, lat: Value, lon: Value, res: Dict)
    ensures var rec := Update(Base(ts, lat, lon), res);
            |Keys(rec)| >= 3 && Keys(rec)[..3] == ["timestamp_utc", "lat", "lon"]
  {
    BaseKeys(ts, lat, lon);
    UpdateKeysPrefix(Base(ts, lat, lon), res);
  }

  /** The merged record has distinct keys, all of them row fields. */
  lemma UpdatedBaseKeys(ts: Value, lat: Value, lon: Value, res: Dict)
    requires Distinct(Keys(res)) && forall c :: c in Keys(res) ==> FetchedField(c)
    ensures var rec := Update(Base(ts, lat, lon), res);
            Distinct(Keys(rec)) && forall c :: c in Keys(rec) ==> RowField(c)
  {
    var b := Base(ts, lat, lon);
    BaseKeys(ts, lat, lon);
    UpdateKeepsDistinct(b, res);
    forall c | c in Keys(Update(b, res))
      ensures RowField(c)
    {
      UpdateKeysWithin(b, res, c);
    }
  }

  lemma BaseKeys(ts: Value, lat: Value, lon: Value)
    ensures Keys(Base(ts, lat, lon)) == ["timestamp_utc", "lat", "lon"]
    ensures Distinct(Keys(Base(ts, lat, lon)))
  {
  }

  /** In the merged record the base fields hold the input's values and every
      other key the fetched record's value. */
  lemma UpdatedBaseGet(ts: Value, lat: Value, lon: Value, res: Dict, k: string)
    requires Distinct(Keys(res)) && forall c :: c in Keys(res) ==> FetchedField(c)
    ensures Get(Update(Base(ts, lat, lon), res), k) ==
              if k == "timestamp_utc" then Some(ts) else if k == "lat" then Some(lat)
              else if k == "lon" then Some(lon) else Get(res, k)
  {
    UpdateGet(Base(ts, lat, lon), res, k);
    BaseGet(ts, lat, lon, k);
    if k in Keys(res) {
      BaseFieldsAreNotFetched(k);
    }
  }

  lemma BaseGet(ts: Value, lat: Value, lon: Value, k: string)
    ensures Get(Base(ts, lat, lon), k) ==
              if k == "timestamp_utc" then Some(ts) else if k == "lat" then Some(lat)
              else if k == "lon" then Some(lon) else None
  {
    var b := Base(ts, lat, lon);
    ConsLookup(b[0], b[1..]);
    ConsLookup(b[1], b[2..]);
    ConsLookup(b[2], []);
    assert b == [b[0]] + b[1..] && b[1..] == [b[1]] + b[2..] && b[2..] == [b[2]] + [];
  }

  lemma BaseFieldsAreNotFetched(k: string)
    requires FetchedField(k)
    ensures k != "timestamp_utc" && k != "lat" && k != "lon"
  {
  }

  /** A row whose timestamp `_fetch_one` cannot parse gives `{}`; any other row
      holds `timestamp_utc`, `lat` and `lon` from the input, first and in that
      order, and every field of the fetched record besides. */
  lemma RowRecordFields(rt: Runtime, get: Transport, df: Table, i: nat, k: string)
    requires WellFormed(df) && i < |df.rows|
    requires Cell(df, i, "lat").Ok? && Cell(df, i, "lon").Ok?
    requires Cell(df, i, "parsed_ts").Ok? && IsoOf(rt, Cell(df, i, "parsed_ts").value).Ok?
    ensures var lat, lon, ts := Cell(df, i, "lat").value, Cell(df, i, "lon").value, Cell(df, i, "parsed_ts").value;
            var res := FetchedRecord(rt, get, lat, lon, IsoOf(rt, ts).value);
            && (res.None? ==> RowRecord(rt, get, df, i) == Ok([]))
            && (res.Some? ==>
                  && RowRecord(rt, get, df, i) == Ok(Update(Base(ts, lat, lon), res.value))
                  && var rec := Update(Base(ts, lat, lon), res.value);
                     && |Keys(rec)| >= 3 && Keys(rec)[..3] == ["timestamp_utc", "lat", "lon"]
                     && Get(rec, k) == if k == "timestamp_utc" then Some(ts) else if k == "lat" then Some(lat)
                                       else if k == "lon" then Some(lon) else Get(res.value, k))
  {
    var lat, lon, ts := Cell(df, i, "lat").value, Cell(df, i, "lon").value, Cell(df, i, "parsed_ts").value;
    var res := FetchedRecord(rt, get, lat, lon, IsoOf(rt, ts).value);
    if res.Some? {
      FetchedKeys(rt, get, lat, lon, IsoOf(rt, ts).value);
      UpdatedBasePrefix(ts, lat, lon, res.value);
      UpdatedBaseGet(ts, lat, lon, res.value, k);
    }
  }

  /** Every row has distinct keys, all of them row fields. */
  lemma RowRecordKeys(rt: Runtime, get: Transport, df: Table, i: nat)
    requires WellFormed(df) && i < |df.rows| && RowRecord(rt, get, df, i).Ok?
    ensures var rec := RowRecord(rt, get, df, i).value;
            Distinct(Keys(rec)) && forall k :: k in Keys(rec) ==> RowField(k)
  {
    var lat, lon, ts := Cell(df, i, "lat").value, Cell(df, i, "lon").value, Cell(df, i, "parsed_ts").value;
    var res := FetchedRecord(rt, get, lat, lon, IsoOf(rt, ts).value);
    if res.Some? {
      FetchedKeys(rt, get, lat, lon, IsoOf(rt, ts).value);
      UpdatedBaseKeys(ts, lat, lon, res.value);
    }
  }

  // ---------------------------------------------------------------------------
  // enrich_df: the table

  /** No name `enrich_df` renames to is a field a row can have. */
  lemma RenameTargetIsNew(c: string)
    requires c in RENAME_MAP
    ensures !RowField(RENAME_MAP[c]) && RENAME_MAP[c] !in RENAME_MAP
  {
  }

  /** No two names are renamed to the same one. */
  lemma RenameInjective(a: string, b: string)
    requires a in RENAME_MAP && b in RENAME_MAP && RENAME_MAP[a] == RENAME_MAP[b]
    ensures a == b
  {
  }

  /** `RenameOf(c)`: the label column `c` has after the renaming. */
  function RenameOf(c: string): string {
    if c in RENAME_MAP then RENAME_MAP[c] else c
  }

  /** Renaming row fields keeps distinct labels distinct. */
  lemma RenameKeepsDistinct(cols: seq<string>)
    requires Distinct(cols) && forall c :: c in cols ==> RowField(c)
    ensures Distinct(Rename(cols, RENAME_MAP))
  {
    var r := Rename(cols, RENAME_MAP);
    forall i, j | 0 <= i < j < |cols|
      ensures r[i] != r[j]
    {
      var a, b := cols[i], cols[j];
      if a in RENAME_MAP && b in RENAME_MAP {
        if r[i] == r[j] {
          RenameInjective(a, b);
        }
      } else if a in RENAME_MAP {
        RenameTargetIsNew(a);
      } else if b in RENAME_MAP {
        RenameTargetIsNew(b);
      }
    }
  }

  /** `enrich_df(df)`: a record per row, the table of the records, its columns
      renamed, then reordered. */
  function Enriched(rt: Runtime, get: Transport, df: Table): Result<Table>
    requires WellFormed(df)
  {
    var records :- Collect(RowResults(rt, get, df));
    var out := FromRecords(records);
    var renamed := Table(Rename(out.columns, RENAME_MAP), out.rows);
    OrderedMembers(renamed.columns);
    Ok(Select(renamed, Ordered(renamed.columns)))
  }

  /** The records' labels are row fields, so renaming keeps them distinct. */
  lemma RecordLabels(rt: Runtime, get: Transport, df: Table)
    requires WellFormed(df) && Collect(RowResults(rt, get, df)).Ok?
    ensures var records := Collect(RowResults(rt, get, df)).value;
            Distinct(LabelsOf(records)) && Distinct(Rename(LabelsOf(records), RENAME_MAP))
  {
    var rs := RowResults(rt, get, df);
    var records := Collect(rs).value;
    CollectRows(rs);
    LabelsOfKeys(records);
    forall c | c in LabelsOf(records)
      ensures RowField(c)
    {
      var i :| 0 <= i < |records| && c in Keys(records[i]);
      assert RowRecord(rt, get, df, i) == Ok(records[i]) by {
        assert rs[i] == RowRecord(rt, get, df, i);
      }
      RowRecordKeys(rt, get, df, i);
    }
    RenameKeepsDistinct(LabelsOf(records));
  }

  /** The result has one row per input row; its columns are the renamed labels
      of the records, each once, none lost, in the order `Ordered` gives. */
  lemma EnrichedColumns(rt: Runtime, get: Transport, df: Table)
    requires WellFormed(df) && Enriched(rt, get, df).Ok?
    ensures var records := Collect(RowResults(rt, get, df)).value;
            var labels := Rename(LabelsOf(records), RENAME_MAP);
            var out := Enriched(rt, get, df).value;
            && |records| == |df.rows| && |out.rows| == |df.rows|
            && out.columns == Ordered(labels)
            && Distinct(out.columns) && multiset(out.columns) == multiset(labels)
  {
    var records := Collect(RowResults(rt, get, df)).value;
    CollectRows(RowResults(rt, get, df));
    RecordLabels(rt, get, df);
    OrderedIsPermutation(Rename(LabelsOf(records), RENAME_MAP));
  }

  /** Each row of the result holds its record: under the renamed label of a
      field, the record's value of that field, or None when the record lacks
      it (a row that was `{}` holds None throughout). */
  lemma EnrichedCell(rt: Runtime, get: Transport, df: Table, i: nat, c: string)
    requires WellFormed(df) && Enriched(rt, get, df).Ok?
    requires var records := Collect(RowResults(rt, get, df)).value;
             i < |records| && c in LabelsOf(records)
    ensures var records := Collect(RowResults(rt, get, df)).value;
            var out := Enriched(rt, get, df).value;
            && i < |out.rows| && RenameOf(c) in out.columns
            && out.rows[i][IndexOf(out.columns, RenameOf(c))] == GetOr(records[i], c, Null)
  {
    var records := Collect(RowResults(rt, get, df)).value;
    RecordLabels(rt, get, df);
    var t := FromRecords(records);
    var labels := t.columns;
    var renamed := Rename(labels, RENAME_MAP);
    var p := IndexOf(labels, c);
    assert renamed[p] == RenameOf(c);
    IndexOfDistinct(renamed, p);
    FromRecordsCell(records, i, c);
    OrderedMembers(renamed);
    var out := Enriched(rt, get, df).value;
    assert out == Select(Table(renamed, t.rows), Ordered(renamed));
    var j := IndexOf(out.columns, RenameOf(c));
    assert out.rows[i][j] == t.rows[i][IndexOf(renamed, out.columns[j])];
  }

  /** `enrich_df`: fetch every row in order, stopping at the first exception,
      then build, rename and reorder the table. */
  method EnrichDf(rt: Runtime, get: Transport, apiKey: Option<string>, debug: bool, df: Table)
    returns (r: Result<Table>)
    requires WellFormed(df)
    ensures r == Enriched(rt, get, df)
  {
    ghost var rs := RowResults(rt, get, df);
    var rows: seq<Dict> := [];
    var i := 0;
    while i < |df.rows|
      invariant 0 <= i <= |df.rows|
      invariant Collect(rs[..i]) == Ok(rows)
    {
      var rec := EnrichRow(rt, get, apiKey, debug, df, i);
      CollectStep(rs, i, rows);
      if rec.Err? {
        CollectStopsAtError(rs, i, |df.rows|);
        assert rs[..|df.rows|] == rs;
        return Err(rec.failure);
      }
      rows := rows + [rec.value];
      i := i + 1;
    }
    assert rs[..i] == rs;
    var out := FromRecords(rows);
    out := out.(columns := Rename(out.columns, RENAME_MAP));
    var existing := Existing(out.columns);
    var others := Others(out.columns);
    OrderedMembers(out.columns);
    r := Ok(Select(out, existing + others));
  }

  /** One turn of the loop: read the row, fetch it and build its record. */
  method EnrichRow(rt: Runtime, get: Transport, apiKey: Option<string>, debug: bool, df: Table, i: nat)
    returns (r: Result<Dict>)
    requires WellFormed(df) && i < |df.rows|
    ensures r == RowRecord(rt, get, df, i)
  {
    var lat :- Cell(df, i, "lat");
    var lon :- Cell(df, i, "lon");
    var ts :- Cell(df, i, "parsed_ts");
    var iso :- IsoOf(rt, ts);
    var res := FetchOne(rt, get, apiKey, debug, lat, lon, iso);
    if res.None? {
      return Ok([]);
    }
    var rec := Base(ts, lat, lon);
    rec := Update(rec, res.value);
    return Ok(rec);
  }
}
