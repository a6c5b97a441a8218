/** The Stormglass point-query client: truncating the requested instant to its
    hour, the request window around it, choosing the sample nearest to the
    requested instant, and resolving one number per variable from a reply in
    which each variable may be a plain number or a map from data source to
    number. The HTTP call itself is a `Transport` the caller supplies. */
module Stormglass {
  import opened Python

  /** The variables requested and resolved, in the client's order. */
  const VARIABLES: seq<string> := [
    "windSpeed", "windDirection",
    "waveHeight", "waveDirection",
    "swellHeight", "swellDirection",
    "windWaveHeight", "windWaveDirection",
    "currentSpeed", "currentDirection", "waterTemperature"
  ]

  /** Stormglass' blended source, always tried first. */
  const BLENDED: string := "sg"

  /** The units every payload reports: Stormglass replies in SI units. */
  const SI_UNITS: map<string, string> := map["wind" := "mps", "current" := "mps"]

  lemma VariablesDistinct()
    ensures Distinct(["iso_time"] + VARIABLES)
  {
  }

  // ---------------------------------------------------------------------------
  // The requested hour and the request window

  /** `nearest_hour`: the start of the UTC hour holding `d`, as an aware UTC
      datetime; a naive `d` is read as UTC. */
  function NearestHour(d: DateTime): (r: DateTime)
    ensures r.offset == Some(0)
    ensures r.wall % HOUR == 0
    ensures r.wall <= Utc(d) < r.wall + HOUR
  {
    var u := Utc(d);
    DateTime(u - u % HOUR, Some(0))
  }

  /** The three properties above pin the hour down: no other whole hour has
      `d` within it. */
  lemma NearestHourUnique(d: DateTime, h: int)
    requires h % HOUR == 0 && h <= Utc(d) < h + HOUR
    ensures NearestHour(d).wall == h
  {
    var r := NearestHour(d).wall;
    var a, b := h / HOUR, r / HOUR;
    assert h == a * HOUR && r == b * HOUR;
    assert -HOUR < h - r < HOUR;
    assert (a - b) * HOUR == h - r;
    assert a == b;
  }

  /** Truncating twice is truncating once. */
  lemma NearestHourIdempotent(d: DateTime)
    ensures NearestHour(NearestHour(d)) == NearestHour(d)
  {
    var r := NearestHour(d);
    NearestHourUnique(r, r.wall);
  }

  /** A naive datetime is truncated exactly as the same reading in UTC. */
  lemma NearestHourNaiveIsUtc(w: int)
    ensures NearestHour(DateTime(w, None)) == NearestHour(DateTime(w, Some(0)))
  {
  }

  /** The query parameters of one request. */
  datatype Params = Params(lat: real, lng: real, variables: seq<string>, start: string, end: string)

  /** `start` and `end` of the window: one hour either side of the truncated hour. */
  function Window(d: DateTime): (w: (DateTime, DateTime))
    ensures w.0.offset == Some(0) && w.1.offset == Some(0)
    ensures Utc(w.0) == Utc(NearestHour(d)) - HOUR && Utc(w.1) == Utc(NearestHour(d)) + HOUR
    ensures Utc(w.0) + HOUR <= Utc(d) < Utc(w.1)
  {
    var target := NearestHour(d);
    (DateTime(target.wall - HOUR, Some(0)), DateTime(target.wall + HOUR, Some(0)))
  }

  /** The request `fetch_point` sends for a point and an instant. */
  function Request(rt: Runtime, lat: real, lon: real, d: DateTime): (q: Params)
    ensures q.lat == lat && q.lng == lon && q.variables == VARIABLES
    ensures q.start == rt.isoformat(Window(d).0) && q.end == rt.isoformat(Window(d).1)
  {
    var w := Window(d);
    Params(lat, lon, VARIABLES, rt.isoformat(w.0), rt.isoformat(w.1))
  }

  /** The HTTP GET: the decoded JSON body, or None when the call raised
      (transport failure, non-success status, malformed JSON). */
  type Transport = Params -> Option<Value>

  /** What `fetch_point` returns: the truncated hour as text, the raw reply,
      and the units of the reply. */
  datatype Payload = Payload(requestedIso: string, raw: Value, units: map<string, string>)

  /** `fetch_point`: the reply is kept whole, a failed call degrades to `{}`
      instead of raising, the reported instant is the truncated hour, and the
      units are always SI. */
  function FetchPoint(rt: Runtime, get: Transport, lat: real, lon: real, d: DateTime): (p: Payload)
    ensures p.requestedIso == rt.isoformat(NearestHour(d))
    ensures p.units == SI_UNITS
    ensures get(Request(rt, lat, lon, d)).None? ==> p.raw == Obj([])
    ensures get(Request(rt, lat, lon, d)).Some? ==> p.raw == get(Request(rt, lat, lon, d)).value
  {
    var target := NearestHour(d);
    var data := match get(Request(rt, lat, lon, d))
                case Some(body) => body
                case None => Obj([]);
    Payload(rt.isoformat(target), data, SI_UNITS)
  }

  // ---------------------------------------------------------------------------
  // Choosing the sample

  /** The instant of an ISO-8601 text, when it is non-empty and parses;
      a naive result is read as UTC. */
  function IsoInstant(rt: Runtime, s: string): Option<int> {
    if s == "" then None
    else match rt.isoparse(s)
      case Some(dt) => Some(Utc(dt))
      case None => None
  }

  /** The instant requested of `_pick_index`: None when the text is absent,
      empty or unparseable. */
  function RequestedTime(rt: Runtime, req: Option<string>): Option<int> {
    match req
    case Some(s) => IsoInstant(rt, s)
    case None => None
  }

  /** The instant of a sample: its "time" entry, when that is a non-empty
      string that parses (isoparse raises on anything that is not a string,
      and the loop skips it). */
  function SampleTime(rt: Runtime, h: Value): (u: Option<int>)
    ensures u.Some? ==> h.Obj? && "time" in Keys(h.entries)
  {
    if !h.Obj? then None
    else match GetOr(h.entries, "time", Null)
      case Str(s) => IsoInstant(rt, s)
      case _ => None
  }

  function Dist(a: int, b: int): nat {
    if a >= b then a - b else b - a
  }

  /** The first sample that is not a dict: the loop's `h.get` raises there. */
  function FirstNonDict(items: seq<Value>): (r: Option<nat>)
    ensures r.Some? ==> r.value < |items| && !items[r.value].Obj?
                        && forall j :: 0 <= j < r.value ==> items[j].Obj?
    ensures r.None? ==> forall j :: 0 <= j < |items| ==> items[j].Obj?
  {
    if items == [] then None
    else if !items[0].Obj? then Some(0)
    else match FirstNonDict(items[1..])
      case Some(j) => Some(j + 1)
      case None => None
  }

  /** The parsed time of every sample, in order: the loop only looks at these. */
  function Times(rt: Runtime, items: seq<Value>): (ts: seq<Option<int>>)
    ensures |ts| == |items|
  {
    if items == [] then [] else Times(rt, items[..|items| - 1]) + [SampleTime(rt, items[|items| - 1])]
  }

  /** Entry `i` of `Times` is the parsed time of sample `i`. */
  lemma {:induction false} TimesAt(rt: Runtime, items: seq<Value>, i: nat)
    requires i < |items|
    ensures Times(rt, items)[i] == SampleTime(rt, items[i])
  {
    var n := |items| - 1;
    if i < n {
      TimesAt(rt, items[..n], i);
      assert items[..n][i] == items[i];
    }
  }

  /** No time before `n` parsed. */
  ghost predicate NoneParsed(times: seq<Option<int>>, n: nat)
    requires n <= |times|
  {
    forall j :: 0 <= j < n ==> times[j].None?
  }

  /** Time `b` parsed, no parsed time before `n` is nearer to `t`, and every
      parsed time before `b` is farther. */
  ghost predicate Nearest(times: seq<Option<int>>, t: int, n: nat, b: nat)
    requires n <= |times|
  {
    && b < n
    && times[b].Some?
    && (forall j :: 0 <= j < n && times[j].Some? ==> Dist(times[b].value, t) <= Dist(times[j].value, t))
    && (forall j :: 0 <= j < b && times[j].Some? ==> Dist(times[b].value, t) < Dist(times[j].value, t))
  }

  /** `(best_i, best_dt)` after the loop has seen the first `n` samples:
      `(0, None)` while no time has parsed; a later time replaces the best one
      only when it is strictly nearer to `t`. */
  function Best(times: seq<Option<int>>, t: int, n: nat): (r: (nat, Option<int>))
    requires n <= |times|
    ensures r.1.None? ==> r.0 == 0
    ensures r.1.Some? ==> r.0 < n && times[r.0] == r.1
  {
    if n == 0 then (0, None)
    else
      var (bestI, bestDt) := Best(times, t, n - 1);
      match times[n - 1]
      case None => (bestI, bestDt)
      case Some(x) =>
        if bestDt.None? || Dist(x, t) < Dist(bestDt.value, t) then (n - 1, Some(x))
        else (bestI, bestDt)
  }

  /** What `for i, h in enumerate(hours): h.get(...)` raises on something
      that is not a list: iterating a str yields one-character strs and
      iterating a dict its str keys, neither of which has `get`. */
  function IterFailure(v: Value): Failure {
    match v
    case Str(_) => NoGet(Str(""))
    case Obj(_) => NoGet(Str(""))
    case _ => NotIterable(TypeName(v))
  }

  /** `_pick_index(hours, requested_iso)`. */
  function NearestIndex(rt: Runtime, hours: Value, req: Option<string>): (r: Result<nat>)
    ensures r.Err? ==> Truthy(hours) && RequestedTime(rt, req).Some?
    ensures r.Ok? && hours.Arr? && hours.items != [] ==> r.value < |hours.items|
  {
    if !Truthy(hours) then Ok(0)
    else match RequestedTime(rt, req)
      case None => Ok(0)
      case Some(t) =>
        if !hours.Arr? then Err(IterFailure(hours))
        else Scanned(rt, hours.items, t)
  }

  /** The loop of `_pick_index` over a list: it raises at the first sample
      that is not a dict, else returns the best index (0 if none parsed). */
  function Scanned(rt: Runtime, items: seq<Value>, t: int): (r: Result<nat>)
    ensures r.Err? <==> exists j :: 0 <= j < |items| && !items[j].Obj?
    ensures r.Ok? && items != [] ==> r.value < |items|
  {
    match FirstNonDict(items)
    case Some(j) => Err(NoGet(items[j]))
    case None => Ok(Best(Times(rt, items), t, |items|).0)
  }

  /** The loop's invariant: after `n` samples the best one, if any, is the
      nearest parsed sample so far and the earliest of the nearest; there is
      none exactly when no sample seen so far parsed. */
  lemma {:induction false} BestIsNearest(times: seq<Option<int>>, t: int, n: nat)
    requires n <= |times|
    ensures Best(times, t, n).1.None? <==> NoneParsed(times, n)
    ensures Best(times, t, n).1.Some? ==> Nearest(times, t, n, Best(times, t, n).0)
  {
    if n > 0 {
      BestIsNearest(times, t, n - 1);
      var (b, d) := Best(times, t, n - 1);
      var last := times[n - 1];
      if last.None? {
        assert Best(times, t, n) == (b, d);
        if d.Some? {
          NearestExtends(times, t, n, b);
        }
      } else if d.Some? && Dist(last.value, t) >= Dist(d.value, t) {
        assert Best(times, t, n) == (b, d);
        NearestExtends(times, t, n, b);
      } else {
        assert Best(times, t, n) == (n - 1, last);
        NearestTakesLast(times, t, n, if d.Some? then Some(b) else None);
      }
    }
  }

  /** The best so far stays best past a time that is not nearer. */
  lemma NearestExtends(times: seq<Option<int>>, t: int, n: nat, b: nat)
    requires 0 < n <= |times|
    requires Nearest(times, t, n - 1, b)
    requires times[n - 1].Some? ==> Dist(times[b].value, t) <= Dist(times[n - 1].value, t)
    ensures Nearest(times, t, n, b)
  {
  }

  /** A parsed time strictly nearer than the best so far (or the first one
      to parse) becomes the best. */
  lemma NearestTakesLast(times: seq<Option<int>>, t: int, n: nat, b: Option<nat>)
    requires 0 < n <= |times| && times[n - 1].Some?
    requires b.None? ==> NoneParsed(times, n - 1)
    requires b.Some? ==> Nearest(times, t, n - 1, b.value) && Dist(times[n - 1].value, t) < Dist(times[b.value].value, t)
    ensures Nearest(times, t, n, n - 1)
  {
  }

  /** `_pick_index` on an empty or falsy list, or with no usable requested
      instant, picks 0. */
  lemma PickIndexFallbacks(rt: Runtime, hours: Value, req: Option<string>)
    ensures !Truthy(hours) ==> NearestIndex(rt, hours, req) == Ok(0)
    ensures RequestedTime(rt, req).None? ==> NearestIndex(rt, hours, req) == Ok(0)
  {
  }

  /** `_pick_index` on a non-empty list of dicts with a parseable requested
      instant: an index in range whose sample has a parsed time nearest to the
      request, the earliest of equally near ones, never one whose time is
      missing or unparseable; 0 when no time parses. */
  lemma NearestIndexIsNearest(rt: Runtime, items: seq<Value>, req: Option<string>)
    requires items != [] && RequestedTime(rt, req).Some?
    requires forall j :: 0 <= j < |items| ==> items[j].Obj?
    ensures NearestIndex(rt, Arr(items), req).Ok?
    ensures var i := NearestIndex(rt, Arr(items), req).value;
            var t := RequestedTime(rt, req).value;
            var times := Times(rt, items);
            && i < |items|
            && (NoneParsed(times, |items|) ==> i == 0)
            && (!NoneParsed(times, |items|) ==> Nearest(times, t, |items|, i))
  {
    BestIsNearest(Times(rt, items), RequestedTime(rt, req).value, |items|);
  }

  /** A sample whose time equals the requested instant is found: the first
      such sample is the one picked. */
  lemma ExactMatchIsPicked(rt: Runtime, items: seq<Value>, req: Option<string>, k: nat)
    requires k < |items| && RequestedTime(rt, req).Some?
    requires forall j :: 0 <= j < |items| ==> items[j].Obj?
    requires SampleTime(rt, items[k]) == RequestedTime(rt, req)
    requires forall j :: 0 <= j < k ==> SampleTime(rt, items[j]) != RequestedTime(rt, req)
    ensures NearestIndex(rt, Arr(items), req) == Ok(k)
  {
    var times := Times(rt, items);
    var t := RequestedTime(rt, req).value;
    TimesAt(rt, items, k);
    forall j | 0 <= j < k
      ensures times[j] != Some(t)
    {
      TimesAt(rt, items, j);
    }
    ExactIsBest(times, t, k);
    assert FirstNonDict(items).None?;
  }

  /** The first time equal to `t` is the best one. */
  lemma ExactIsBest(times: seq<Option<int>>, t: int, k: nat)
    requires k < |times| && times[k] == Some(t)
    requires forall j :: 0 <= j < k ==> times[j] != Some(t)
    ensures Best(times, t, |times|).0 == k
  {
    BestIsNearest(times, t, |times|);
    var i := Best(times, t, |times|).0;
    assert Dist(times[i].value, t) == 0;
  }

  /** `_pick_index` raises exactly when the requested instant parses and the
      list holds something other than a dict (or is not a list at all). */
  lemma PickIndexRaises(rt: Runtime, hours: Value, req: Option<string>)
    ensures NearestIndex(rt, hours, req).Err? <==>
            Truthy(hours) && RequestedTime(rt, req).Some? &&
            (!hours.Arr? || exists j :: 0 <= j < |hours.items| && !hours.items[j].Obj?)
  {
  }

  // ---------------------------------------------------------------------------
  // Resolving one variable

  /** `float(v)` when `_is_number(v)`, else None. */
  function Number(rt: Runtime, v: Value): (r: Option<real>)
    ensures r.Some? <==> FloatOf(rt.parseFloat, v).Ok?
    ensures r.Some? ==> r.value == FloatOf(rt.parseFloat, v).value
  {
    match FloatOf(rt.parseFloat, v)
    case Ok(x) => Some(x)
    case Err(_) => None
  }

  /** The first numeric value of a source map, in the map's order. */
  function FirstNumber(rt: Runtime, e: seq<(string, Value)>): Option<real> {
    if e == [] then None
    else match Number(rt, e[0].1)
      case Some(x) => Some(x)
      case None => FirstNumber(rt, e[1..])
  }

  /** The number stored under `source` in a source map, if it is numeric. */
  function FromSource(rt: Runtime, e: seq<(string, Value)>, source: string): (r: Option<real>)
    ensures r.Some? ==> source in Keys(e)
  {
    match Get(e, source)
    case Some(v) => Number(rt, v)
    case None => None
  }

  /** `_get_value` once `hour_obj.get(key)` has given `v`: for a source map the
      blended source, then the preferred one, then the first numeric entry;
      otherwise the value itself if numeric. */
  function Resolve(rt: Runtime, preferred: string, v: Value): Option<real> {
    match v
    case Obj(e) =>
      if FromSource(rt, e, BLENDED).Some? then FromSource(rt, e, BLENDED)
      else if FromSource(rt, e, preferred).Some? then FromSource(rt, e, preferred)
      else FirstNumber(rt, e)
    case _ => Number(rt, v)
  }

  /** `_get_value(hour_obj, key)`; a missing key is None. */
  function ValueOf(rt: Runtime, preferred: string, h: Dict, key: string): (r: Option<real>)
    ensures key !in Keys(h) ==> r.None?
  {
    Resolve(rt, preferred, GetOr(h, key, Null))
  }

  /** The first-numeric fallback: there is a result exactly when some entry is
      numeric, and then it is the number of the first such entry. */
  lemma {:induction false} FirstNumberIsFirst(rt: Runtime, e: seq<(string, Value)>)
    ensures FirstNumber(rt, e).None? <==> forall i :: 0 <= i < |e| ==> Number(rt, e[i].1).None?
    ensures FirstNumber(rt, e).Some? ==>
            exists i :: 0 <= i < |e| && FirstNumber(rt, e) == Number(rt, e[i].1)
                        && forall j :: 0 <= j < i ==> Number(rt, e[j].1).None?
  {
    if e != [] {
      FirstNumberIsFirst(rt, e[1..]);
      if Number(rt, e[0].1).None? && FirstNumber(rt, e).Some? {
        var i :| 0 <= i < |e[1..]| && FirstNumber(rt, e[1..]) == Number(rt, e[1..][i].1)
                 && forall j :: 0 <= j < i ==> Number(rt, e[1..][j].1).None?;
        assert forall j :: 0 <= j < i + 1 ==> Number(rt, e[j].1).None? by {
          forall j | 0 <= j < i + 1 ensures Number(rt, e[j].1).None? {
            if j > 0 { assert e[j] == e[1..][j - 1]; }
          }
        }
      }
    }
  }

  /** The priority chain of `_get_value` on a source map. */
  lemma ResolvePriority(rt: Runtime, preferred: string, e: seq<(string, Value)>)
    ensures var r := Resolve(rt, preferred, Obj(e));
            && (FromSource(rt, e, BLENDED).Some? ==> r == FromSource(rt, e, BLENDED))
            && (FromSource(rt, e, BLENDED).None? && FromSource(rt, e, preferred).Some? ==>
                  r == FromSource(rt, e, preferred))
            && (FromSource(rt, e, BLENDED).None? && FromSource(rt, e, preferred).None? ==>
                  (r.None? <==> forall i :: 0 <= i < |e| ==> Number(rt, e[i].1).None?))
            && (FromSource(rt, e, BLENDED).None? && FromSource(rt, e, preferred).None? && r.Some? ==>
                  exists i :: 0 <= i < |e| && r == Number(rt, e[i].1)
                              && forall j :: 0 <= j < i ==> Number(rt, e[j].1).None?)
  {
    FirstNumberIsFirst(rt, e);
  }

  /** When a preferred value is found it is always numeric: an entry the
      chain returns is one `float()` accepts. */
  lemma {:induction false} ResolveIsSomeEntry(rt: Runtime, preferred: string, e: seq<(string, Value)>)
    requires Resolve(rt, preferred, Obj(e)).Some?
    ensures exists i :: 0 <= i < |e| && Resolve(rt, preferred, Obj(e)) == Number(rt, e[i].1)
  {
    FirstNumberIsFirst(rt, e);
    var r := Resolve(rt, preferred, Obj(e));
    var s := if FromSource(rt, e, BLENDED).Some? then BLENDED else preferred;
    if FromSource(rt, e, s).Some? && r == FromSource(rt, e, s) {
      GetEntry(e, s);
      var i :| 0 <= i < |e| && e[i] == (s, Get(e, s).value);
      assert r == Number(rt, e[i].1);
    }
  }

  /** `_get_value` on anything but a dict: the value as a number when
      `float()` accepts it; a missing key, None or a non-numeric text is None. */
  lemma ValueOfPlain(rt: Runtime, preferred: string, h: Dict, key: string)
    requires !GetOr(h, key, Null).Obj?
    ensures ValueOf(rt, preferred, h, key) == Number(rt, GetOr(h, key, Null))
    ensures key !in Keys(h) ==> ValueOf(rt, preferred, h, key).None?
  {
  }

  // ---------------------------------------------------------------------------
  // Extracting a record

  /** `raw.get("hours")`, or `raw.get("data")` when that is empty or absent, of
      the raw reply (a falsy reply counts as `{}`, one that is not a dict has
      no samples). */
  function Samples(raw: Value): (hours: Value)
    ensures !(raw.Obj? && Truthy(raw)) ==> hours == Arr([])
  {
    var raw := if Truthy(raw) then raw else Obj([]);
    if !raw.Obj? then Arr([])
    else
      var hours := GetOr(raw.entries, "hours", Arr([]));
      if Truthy(hours) then hours else GetOr(raw.entries, "data", Arr([]))
  }

  /** The samples are read from "hours", and from "data" only when "hours" is
      empty or absent. */
  lemma SamplesPreferHours(e: seq<(string, Value)>)
    ensures Truthy(GetOr(e, "hours", Arr([]))) ==> Samples(Obj(e)) == GetOr(e, "hours", Arr([]))
    ensures !Truthy(GetOr(e, "hours", Arr([]))) ==> Samples(Obj(e)) == GetOr(e, "data", Arr([]))
  {
  }

  function NatText(n: nat): string {
    var d := ["0", "1", "2", "3", "4", "5", "6", "7", "8", "9"][n % 10];
    if n < 10 then d else NatText(n / 10) + d
  }

  /** `hours[i] if i < len(hours) else {}`. */
  function SampleAt(hours: Value, i: nat): (r: Result<Value>)
    ensures hours.Arr? || hours.Str? ==> r.Ok?
  {
    match hours
    case Arr(items) => Ok(if i < |items| then items[i] else Obj([]))
    case Str(s) => Ok(if i < |s| then Str([s[i]]) else Obj([]))
    case Obj(e) => if i < |e| then Err(MissingKey(NatText(i))) else Ok(Obj([]))
    case _ => Err(NoLength(TypeName(hours)))
  }

  function AsValue(x: Option<real>): Value {
    match x
    case Some(v) => Num(v)
    case None => Null
  }

  /** The record `{k: f(k) for k in keys}`, in `keys` order. */
  function Tabulate(keys: seq<string>, f: string -> Value): (d: Dict)
    ensures Keys(d) == keys
    ensures forall i {:trigger d[i]} :: 0 <= i < |keys| ==> d[i] == (keys[i], f(keys[i]))
  {
    seq(|keys|, i requires 0 <= i < |keys| => (keys[i], f(keys[i])))
  }

  /** The tracked variables of one sample, each resolved, in `keys` order. */
  function Resolved(rt: Runtime, preferred: string, h: Dict, keys: seq<string>): (d: Dict)
    ensures forall i :: 0 <= i < |d| ==> d[i].1 == Null || d[i].1.Num?
  {
    Tabulate(keys, k => AsValue(ValueOf(rt, preferred, h, k)))
  }

  /** Every tracked variable set to None. */
  function Blank(keys: seq<string>): (d: Dict)
    ensures forall i :: 0 <= i < |d| ==> d[i].1 == Null
  {
    Tabulate(keys, k => Null)
  }

  /** The variable filled next is not yet in the record. */
  lemma NextIsFresh(out: Dict, n: nat)
    requires n < |VARIABLES| && Keys(out) == ["iso_time"] + VARIABLES[..n]
    ensures VARIABLES[n] !in Keys(out)
  {
    VariablesDistinct();
    var all := ["iso_time"] + VARIABLES;
    assert Keys(out) == all[..n + 1];
    assert all[n + 1] == VARIABLES[n];
  }

  /** One turn of the fill loop appends the next variable with its value. */
  lemma FillStep(f: string -> Value, time: Value, out: Dict, n: nat)
    requires n < |VARIABLES|
    requires out == [("iso_time", time)] + Tabulate(VARIABLES[..n], f)
    ensures Set(out, VARIABLES[n], f(VARIABLES[n])) == [("iso_time", time)] + Tabulate(VARIABLES[..n + 1], f)
  {
    var k := VARIABLES[n];
    KeysConcat([("iso_time", time)], Tabulate(VARIABLES[..n], f));
    NextIsFresh(out, n);
    SetAbsentAppends(out, k, f(k));
    TabulateSnoc(VARIABLES, f, n);
  }

  lemma TabulateSnoc(keys: seq<string>, f: string -> Value, n: nat)
    requires n < |keys|
    ensures Tabulate(keys[..n + 1], f) == Tabulate(keys[..n], f) + [(keys[n], f(keys[n]))]
  {
  }

  /** `extract_values(payload, requested_iso)`. In the source the no-samples
      branch is garbled (its key list is not valid Python); this is its evident
      intent, every tracked variable set to None. */
  function Extracted(rt: Runtime, preferred: string, payload: Payload, req: Option<string>): (r: Result<Dict>)
    ensures r.Err? ==> Truthy(Samples(payload.raw))
  {
    var reqIso := if req.Some? && req.value != "" then req else Some(payload.requestedIso);
    var hours := Samples(payload.raw);
    if Truthy(hours) then
      var i :- NearestIndex(rt, hours, reqIso);
      var h :- SampleAt(hours, i);
      if !h.Obj? then Err(NoGet(h))
      else Ok([("iso_time", GetOr(h.entries, "time", Null))] + Resolved(rt, preferred, h.entries, VARIABLES))
    else
      Ok(BlankRecord())
  }

  /** Every record carries `iso_time` and the eleven variables, in that order,
      each exactly once. */
  lemma ExtractedKeys(rt: Runtime, preferred: string, payload: Payload, req: Option<string>)
    requires Extracted(rt, preferred, payload, req).Ok?
    ensures Keys(Extracted(rt, preferred, payload, req).value) == ["iso_time"] + VARIABLES
    ensures Distinct(Keys(Extracted(rt, preferred, payload, req).value))
  {
    VariablesDistinct();
    var d := Extracted(rt, preferred, payload, req).value;
    assert Keys(d) == [d[0].0] + Keys(d[1..]);
  }

  /** With samples, `iso_time` is the chosen sample's time and each variable
      is `_get_value` of that sample; the chosen sample is the one
      `_pick_index` gives. */
  lemma ExtractedFromSample(rt: Runtime, preferred: string, payload: Payload, req: Option<string>, k: string)
    requires Truthy(Samples(payload.raw)) && Samples(payload.raw).Arr?
    requires Extracted(rt, preferred, payload, req).Ok?
    ensures var items := Samples(payload.raw).items;
            var reqIso := if req.Some? && req.value != "" then req else Some(payload.requestedIso);
            var i := NearestIndex(rt, Samples(payload.raw), reqIso).value;
            var out := Extracted(rt, preferred, payload, req).value;
            && i < |items| && items[i].Obj?
            && Get(out, "iso_time") == Some(GetOr(items[i].entries, "time", Null))
            && (k in VARIABLES ==> Get(out, k) == Some(AsValue(ValueOf(rt, preferred, items[i].entries, k))))
  {
    ExtractedKeys(rt, preferred, payload, req);
    var out := Extracted(rt, preferred, payload, req).value;
    GetAt(out, 0);
    if k in VARIABLES {
      var n :| 0 <= n < |VARIABLES| && VARIABLES[n] == k;
      GetAt(out, n + 1);
    }
  }

  /** Without samples the record is `BlankRecord()`. */
  lemma ExtractedBlank(rt: Runtime, preferred: string, payload: Payload, req: Option<string>)
    requires !Truthy(Samples(payload.raw))
    ensures Extracted(rt, preferred, payload, req) == Ok(BlankRecord())
  {
  }

  /** The record of a reply without samples: `iso_time` and every variable None. */
  function BlankRecord(): (d: Dict)
    ensures |d| == 1 + |VARIABLES|
    ensures forall i :: 0 <= i < |d| ==> d[i].1 == Null
  {
    [("iso_time", Null)] + Blank(VARIABLES)
  }

  /** In the blank record every key, `iso_time` included, is None. */
  lemma BlankRecordAt(k: string)
    ensures Keys(BlankRecord()) == ["iso_time"] + VARIABLES
    ensures Get(BlankRecord(), k) == if k in ["iso_time"] + VARIABLES then Some(Null) else None
  {
    ConsLookup(("iso_time", Null), Blank(VARIABLES));
    GetTabulate(VARIABLES, k => Null, k);
  }

  /** A key of a tabulated record holds its image, whatever else repeats. */
  lemma {:induction false} GetTabulate(keys: seq<string>, f: string -> Value, k: string)
    ensures Get(Tabulate(keys, f), k) == if k in keys then Some(f(k)) else None
  {
    if keys != [] {
      var d := Tabulate(keys, f);
      assert d[1..] == Tabulate(keys[1..], f);
      GetTabulate(keys[1..], f, k);
    }
  }

  /** Every tracked variable of a record is a number or None. */
  lemma ExtractedNumeric(rt: Runtime, preferred: string, payload: Payload, req: Option<string>, k: string)
    requires Extracted(rt, preferred, payload, req).Ok? && k in VARIABLES
    ensures Get(Extracted(rt, preferred, payload, req).value, k).Some?
    ensures var v := Get(Extracted(rt, preferred, payload, req).value, k).value; v == Null || v.Num?
  {
    ExtractedKeys(rt, preferred, payload, req);
    var out := Extracted(rt, preferred, payload, req).value;
    var n :| 0 <= n < |VARIABLES| && VARIABLES[n] == k;
    GetAt(out, n + 1);
    var tail := out[1..];
    assert out[n + 1] == tail[n];
    if Truthy(Samples(payload.raw)) {
      var hours := Samples(payload.raw);
      var reqIso := if req.Some? && req.value != "" then req else Some(payload.requestedIso);
      var h := SampleAt(hours, NearestIndex(rt, hours, reqIso).value).value;
      assert tail == Resolved(rt, preferred, h.entries, VARIABLES);
    } else {
      assert tail == Blank(VARIABLES);
    }
  }

  /** A failed transport call leaves no samples, so the record is all None
      rather than an error. */
  lemma TransportFailureGivesBlankRecord(rt: Runtime, get: Transport, preferred: string,
                                         lat: real, lon: real, d: DateTime, req: Option<string>)
    requires get(Request(rt, lat, lon, d)).None?
    ensures Extracted(rt, preferred, FetchPoint(rt, get, lat, lon, d), req) == Ok(BlankRecord())
  {
    var p := FetchPoint(rt, get, lat, lon, d);
    assert Samples(p.raw) == Arr([]);
    ExtractedBlank(rt, preferred, p, req);
  }

  // ---------------------------------------------------------------------------
  // The client

  /** `StormglassClient`: configuration set once at construction. The key,
      timeout and debug flag only affect the transport, which is abstract here. */
  class StormglassClient {
    const apiKey: Option<string>
    const timeout: int
    const debug: bool
    const preferredSource: string

    /** A missing or empty preferred source falls back to the blended one. */
    constructor (apiKey: Option<string>, timeout: int, debug: bool, preferredSource: Option<string>)
      ensures this.apiKey == apiKey && this.timeout == timeout && this.debug == debug
      ensures preferredSource.Some? && preferredSource.value != "" ==> this.preferredSource == preferredSource.value
      ensures preferredSource.None? || preferredSource.value == "" ==> this.preferredSource == BLENDED
    {
      this.apiKey := apiKey;
      this.timeout := timeout;
      this.debug := debug;
      this.preferredSource := if preferredSource.Some? && preferredSource.value != "" then preferredSource.value else BLENDED;
    }

    /** The loop body's reading of `h.get("time")`: None for a falsy value and
        for one that `isoparse` rejects (the loop goes on to the next sample). */
    method ParseTime(rt: Runtime, h: Value) returns (u: Option<int>)
      requires h.Obj?
      ensures u == SampleTime(rt, h)
    {
      var ts := GetOr(h.entries, "time", Null);
      if !Truthy(ts) || !ts.Str? {
        return None;
      }
      var dt := rt.isoparse(ts.s);
      if dt.None? {
        return None;
      }
      return Some(Utc(dt.value));
    }

    /** `_pick_index`: a linear scan keeping the strictly nearest sample. */
    method PickIndex(rt: Runtime, hours: Value, requestedIso: Option<string>) returns (r: Result<nat>)
      ensures r == NearestIndex(rt, hours, requestedIso)
    {
      if !Truthy(hours) {
        return Ok(0);
      }
      var tReq := RequestedTime(rt, requestedIso);
      if tReq.None? {
        return Ok(0);
      }
      if !hours.Arr? {
        return Err(IterFailure(hours));
      }
      r := Scan(rt, hours.items, tReq.value);
    }

    /** The `for` loop of `_pick_index`. */
    method Scan(rt: Runtime, items: seq<Value>, t: int) returns (r: Result<nat>)
      ensures r == Scanned(rt, items, t)
    {
      ghost var times := Times(rt, items);
      var bestI: nat, bestDt: Option<int> := 0, None;
      var i := 0;
      while i < |items|
        invariant 0 <= i <= |items|
        invariant forall j :: 0 <= j < i ==> items[j].Obj?
        invariant (bestI, bestDt) == Best(times, t, i)
      {
        var h := items[i];
        if !h.Obj? {
          assert FirstNonDict(items) == Some(i);
          return Err(NoGet(h));
        }
        var u := ParseTime(rt, h);
        TimesAt(rt, items, i);
        if u.Some? && (bestDt.None? || Dist(u.value, t) < Dist(bestDt.value, t)) {
          bestDt, bestI := u, i;
        }
        i := i + 1;
      }
      assert FirstNonDict(items).None?;
      return Ok(bestI);
    }

    /** `_get_value`, with its early-exit loop over the source map. */
    method GetValue(rt: Runtime, hourObj: Dict, key: string) returns (r: Option<real>)
      ensures r == ValueOf(rt, preferredSource, hourObj, key)
    {
      var val := GetOr(hourObj, key, Null);
      if !val.Obj? {
        return Number(rt, val);
      }
      var e := val.entries;
      if FromSource(rt, e, BLENDED).Some? {
        return FromSource(rt, e, BLENDED);
      }
      if FromSource(rt, e, preferredSource).Some? {
        return FromSource(rt, e, preferredSource);
      }
      var i := 0;
      while i < |e|
        invariant 0 <= i <= |e|
        invariant FirstNumber(rt, e) == FirstNumber(rt, e[i..])
      {
        assert e[i..][1..] == e[i + 1..];
        var x := Number(rt, e[i].1);
        if x.Some? {
          return x;
        }
        i := i + 1;
      }
      return None;
    }

    /** `extract_values`: the record is filled key by key. */
    method ExtractValues(rt: Runtime, payload: Payload, requestedIso: Option<string>) returns (r: Result<Dict>)
      ensures r == Extracted(rt, preferredSource, payload, requestedIso)
    {
      var req := if requestedIso.Some? && requestedIso.value != "" then requestedIso else Some(payload.requestedIso);
      var hours := Samples(payload.raw);
      var out: Dict;
      if Truthy(hours) {
        var i :- PickIndex(rt, hours, req);
        var h :- SampleAt(hours, i);
        if !h.Obj? {
          return Err(NoGet(h));
        }
        out := FillFromSample(rt, h.entries);
      } else {
        out := FillBlank();
      }
      return Ok(out);
    }

    /** The loop of `extract_values` over the tracked variables, with a sample. */
    method FillFromSample(rt: Runtime, h: Dict) returns (out: Dict)
      ensures out == [("iso_time", GetOr(h, "time", Null))] + Resolved(rt, preferredSource, h, VARIABLES)
    {
      out := [("iso_time", Null)];
      var time := GetOr(h, "time", Null);
      out := Set(out, "iso_time", time);
      var n := 0;
      while n < |VARIABLES|
        invariant 0 <= n <= |VARIABLES|
        invariant out == [("iso_time", time)] + Resolved(rt, preferredSource, h, VARIABLES[..n])
      {
        var k := VARIABLES[n];
        var v := GetValue(rt, h, k);
        FillStep(k => AsValue(ValueOf(rt, preferredSource, h, k)), time, out, n);
        out := Set(out, k, AsValue(v));
        n := n + 1;
      }
      assert VARIABLES[..n] == VARIABLES;
    }

    /** The loop of `extract_values` over the tracked variables, without samples. */
    method FillBlank() returns (out: Dict)
      ensures out == BlankRecord()
    {
      out := [("iso_time", Null)];
      var n := 0;
      while n < |VARIABLES|
        invariant 0 <= n <= |VARIABLES|
        invariant out == [("iso_time", Null)] + Blank(VARIABLES[..n])
      {
        var k := VARIABLES[n];
        FillStep(k => Null, Null, out, n);
        out := Set(out, k, Null);
        n := n + 1;
      }
      assert VARIABLES[..n] == VARIABLES;
    }
  }
}
