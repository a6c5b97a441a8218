/** The pure helpers: speed in metres per second to knots, the wind colour
    bands of the map, and the normalisation of an uploaded table of
    (timestamp, lat, lon) rows. */
module Utils {
  import opened Python
  import opened Frames

  // ---------------------------------------------------------------------------
  // Knots

  /** Knots per metre per second. */
  const KTS_PER_MPS: real := 1.9438444924574

  /** `to_knots`: None for None and for anything `float()` rejects, else the
      speed scaled to knots (the factor is written out so that the scaling
      stays linear arithmetic; ToKnotsScales ties it to `KTS_PER_MPS`). */
  function ToKnots(rt: Runtime, mps: Value): (r: Option<real>)
    ensures mps == Null ==> r.None?
    ensures r.Some? <==> FloatOf(rt.parseFloat, mps).Ok?
  {
    if mps == Null then None
    else match FloatOf(rt.parseFloat, mps)
      case Ok(x) => Some(x * 1.9438444924574)
      case Err(_) => None
  }

  /** Whatever `float()` accepts is scaled by the conversion factor: one
      metre per second is the factor itself, and dividing by the factor gives
      the speed back. */
  lemma ToKnotsScales(rt: Runtime, mps: Value)
    requires FloatOf(rt.parseFloat, mps).Ok?
    ensures ToKnots(rt, mps) == Some(FloatOf(rt.parseFloat, mps).value * KTS_PER_MPS)
    ensures ToKnots(rt, mps).value / KTS_PER_MPS == FloatOf(rt.parseFloat, mps).value
    ensures ToKnots(rt, Num(1.0)) == Some(KTS_PER_MPS)
  {
  }

  /** The conversion keeps the order of speeds. */
  lemma ToKnotsMonotone(rt: Runtime, x: real, y: real)
    requires x <= y
    ensures ToKnots(rt, Num(x)).value <= ToKnots(rt, Num(y)).value
  {
  }

  // ---------------------------------------------------------------------------
  // Wind colour

  datatype Color = Gray | Green | Orange | Red

  /** `wind_color`; `None` stands for both a missing speed and NaN. */
  function WindColor(kt: Option<real>): (c: Color)
    ensures c == Gray <==> kt.None?
    ensures kt.Some? ==> (c == Green <==> kt.value < 16.0)
    ensures kt.Some? ==> (c == Orange <==> 16.0 <= kt.value <= 24.0)
    ensures kt.Some? ==> (c == Red <==> kt.value > 24.0)
  {
    match kt
    case None => Gray
    case Some(x) => if x < 16.0 then Green else if x <= 24.0 then Orange else Red
  }

  /** The legend the sidebar shows: `< 16` green, `16–24` orange, `> 24` red. */
  function Legend(x: real): set<Color> {
    (if x < 16.0 then {Green} else {}) +
    (if 16.0 <= x <= 24.0 then {Orange} else {}) +
    (if x > 24.0 then {Red} else {})
  }

  /** Every known speed lies in exactly one band of the legend, and the
      colour given is that band's. */
  lemma WindColorMatchesLegend(x: real)
    ensures Legend(x) == {WindColor(Some(x))}
  {
  }

  // ---------------------------------------------------------------------------
  // Normalising an uploaded table

  /** The required columns, in the order they are looked for. */
  const REQUIRED: seq<string> := ["timestamp", "lat", "lon"]

  /** The characters `str.isspace()` accepts: the ASCII controls tab to
      carriage return and file to unit separator, the space, and the Unicode
      space and line/paragraph separators. */
  predicate IsSpace(c: char) {
    || '\t' <= c <= '\r'
    || '\U{1C}' <= c <= '\U{20}'
    || c == '\U{85}' || c == '\U{A0}' || c == '\U{1680}'
    || '\U{2000}' <= c <= '\U{200A}'
    || c == '\U{2028}' || c == '\U{2029}' || c == '\U{202F}' || c == '\U{205F}' || c == '\U{3000}'
  }

  function TrimStart(s: string): (r: string)
    ensures r == [] || !IsSpace(r[0])
  {
    if s != [] && IsSpace(s[0]) then TrimStart(s[1..]) else s
  }

  function TrimEnd(s: string): (r: string)
    ensures r == [] || !IsSpace(r[|r| - 1])
    ensures |r| <= |s| && r == s[..|r|]
    ensures s != [] && !IsSpace(s[0]) ==> r != []
  {
    if s != [] && IsSpace(s[|s| - 1]) then TrimEnd(s[..|s| - 1]) else s
  }

  /** `s.lower()` on the ASCII letters. */
  function Lower(s: string): (r: string)
    ensures |r| == |s|
    ensures forall i :: 0 <= i < |r| ==> !('A' <= r[i] <= 'Z')
  {
    seq(|s|, i requires 0 <= i < |s| => if 'A' <= s[i] <= 'Z' then (s[i] as int + 32) as char else s[i])
  }

  /** `c.strip().lower()`, the key a header is matched by. */
  function HeaderKey(c: string): string {
    Lower(TrimEnd(TrimStart(c)))
  }

  /** A key has no whitespace at either end and no upper-case letter. */
  lemma HeaderKeyShape(c: string)
    ensures var k := HeaderKey(c);
            && (k == [] || (!IsSpace(k[0]) && !IsSpace(k[|k| - 1])))
            && forall i :: 0 <= i < |k| ==> !('A' <= k[i] <= 'Z')
  {
  }

  /** `k.replace(" ", "")`. */
  function NoSpaces(k: string): (r: string)
    ensures ' ' !in r
  {
    if k == [] then [] else (if k[0] == ' ' then [] else [k[0]]) + NoSpaces(k[1..])
  }

  /** A text without spaces is its own space-free form. */
  lemma {:induction false} NoSpacesKeeps(k: string)
    requires ' ' !in k
    ensures NoSpaces(k) == k
  {
    if k != [] {
      NoSpacesKeeps(k[1..]);
    }
  }

  /** `{c.strip().lower(): c for c in columns}`: keys in order of first
      appearance, each mapped to the LAST header with that key. */
  function HeaderIndex(columns: seq<string>): (index: seq<(string, string)>)
    ensures Distinct(Keys(index))
    ensures forall k :: Get(index, k).Some? ==> Get(index, k).value in columns && HeaderKey(Get(index, k).value) == k
  {
    if columns == [] then []
    else
      var last := columns[|columns| - 1];
      Set(HeaderIndex(columns[..|columns| - 1]), HeaderKey(last), last)
  }

  /** `alts[0]` of `[k for k in cols if k.replace(" ", "") == need]`. */
  function FirstAlt(keys: seq<string>, need: string): (r: Option<string>)
    ensures r.Some? ==> r.value in keys && NoSpaces(r.value) == need
    ensures r.None? ==> forall k :: k in keys ==> NoSpaces(k) != need
  {
    if keys == [] then None
    else if NoSpaces(keys[0]) == need then Some(keys[0])
    else FirstAlt(keys[1..], need)
  }

  /** The header used for a required name: the header whose key is the name
      itself, else the header of the first key that equals the name once its
      spaces are removed. */
  function MatchHeader(index: seq<(string, string)>, need: string): (r: Option<string>)
  {
    match Get(index, need)
    case Some(c) => Some(c)
    case None =>
      match FirstAlt(Keys(index), need)
      case Some(k) => Get(index, k)
      case None => None
  }

  // Reference definitions by position in the header list.

  /** The last header whose key is `k`. */
  function LastWithKey(columns: seq<string>, k: string): (r: Option<nat>)
    ensures r.Some? ==> r.value < |columns| && HeaderKey(columns[r.value]) == k
    ensures r.Some? ==> forall j :: r.value < j < |columns| ==> HeaderKey(columns[j]) != k
    ensures r.None? ==> forall j :: 0 <= j < |columns| ==> HeaderKey(columns[j]) != k
  {
    if columns == [] then None
    else if HeaderKey(columns[|columns| - 1]) == k then Some(|columns| - 1)
    else LastWithKey(columns[..|columns| - 1], k)
  }

  /** The first header whose key equals `need` once spaces are removed. */
  function FirstAltHeader(columns: seq<string>, need: string): (r: Option<nat>)
    ensures r.Some? ==> r.value < |columns| && NoSpaces(HeaderKey(columns[r.value])) == need
    ensures r.Some? ==> forall j :: 0 <= j < r.value ==> NoSpaces(HeaderKey(columns[j])) != need
    ensures r.None? ==> forall j :: 0 <= j < |columns| ==> NoSpaces(HeaderKey(columns[j])) != need
  {
    if columns == [] then None
    else
      var n := |columns| - 1;
      var prefix := columns[..n];
      var r := FirstAltHeader(prefix, need);
      assert forall j :: 0 <= j < n ==> prefix[j] == columns[j];
      if r.Some? then r
      else if NoSpaces(HeaderKey(columns[n])) == need then Some(n)
      else None
  }

  /** The header chosen for `need`, by position: the last header whose key is
      `need`; failing that, the last header sharing the key of the first
      header that matches once spaces are removed. */
  function ReferenceHeader(columns: seq<string>, need: string): Option<string> {
    match LastWithKey(columns, need)
    case Some(i) => Some(columns[i])
    case None =>
      match FirstAltHeader(columns, need)
      case Some(j) => Some(columns[LastWithKey(columns, HeaderKey(columns[j])).value])
      case None => None
  }

  /** The dict maps each key to its last header: later headers overwrite. */
  lemma {:induction false} HeaderIndexGet(columns: seq<string>, k: string)
    ensures Get(HeaderIndex(columns), k) ==
            match LastWithKey(columns, k)
            case Some(i) => Some(columns[i])
            case None => None
  {
    if columns != [] {
      var n := |columns| - 1;
      var prefix, last := columns[..n], columns[n];
      assert HeaderIndex(columns) == Set(HeaderIndex(prefix), HeaderKey(last), last);
      if HeaderKey(last) != k {
        HeaderIndexGet(prefix, k);
        assert LastWithKey(columns, k) == LastWithKey(prefix, k);
        var i := LastWithKey(prefix, k);
        if i.Some? {
          assert prefix[i.value] == columns[i.value];
        }
      }
    }
  }

  /** The position of the first key matching `P` in a list extended at its end. */
  lemma {:induction false} FirstAltSnoc(keys: seq<string>, x: string, need: string)
    ensures FirstAlt(keys + [x], need) ==
            if FirstAlt(keys, need).Some? then FirstAlt(keys, need)
            else if NoSpaces(x) == need then Some(x) else None
  {
    if keys != [] {
      assert (keys + [x])[1..] == keys[1..] + [x];
      FirstAltSnoc(keys[1..], x, need);
    }
  }

  /** The dict's keys come in order of first appearance, so the first key that
      matches without spaces is the key of the first such header. */
  lemma {:induction false} HeaderIndexFirstAlt(columns: seq<string>, need: string)
    ensures FirstAlt(Keys(HeaderIndex(columns)), need) ==
            match FirstAltHeader(columns, need)
            case Some(j) => Some(HeaderKey(columns[j]))
            case None => None
  {
    if columns != [] {
      var prefix := columns[..|columns| - 1];
      var last := columns[|columns| - 1];
      HeaderIndexFirstAlt(prefix, need);
      var before := Keys(HeaderIndex(prefix));
      FirstAltSnoc(before, HeaderKey(last), need);
      var j := FirstAltHeader(prefix, need);
      if j.Some? {
        assert prefix[j.value] == columns[j.value];
      }
    }
  }

  /** An exact key match for a required name wins over a space-removed one;
      the alternative is the first such key in column order; and a key
      shared by several headers stands for the last of them. */
  lemma MatchHeaderIsReference(columns: seq<string>, need: string)
    ensures MatchHeader(HeaderIndex(columns), need) == ReferenceHeader(columns, need)
  {
    HeaderIndexGet(columns, need);
    HeaderIndexFirstAlt(columns, need);
    var j := FirstAltHeader(columns, need);
    if j.Some? {
      HeaderIndexGet(columns, HeaderKey(columns[j.value]));
    }
  }

  /** The header chosen is one of the table's headers. */
  lemma MatchHeaderIsAColumn(columns: seq<string>, need: string)
    requires MatchHeader(HeaderIndex(columns), need).Some?
    ensures MatchHeader(HeaderIndex(columns), need).value in columns
  {
    MatchHeaderIsReference(columns, need);
  }

  /** With the required name free of spaces, the header chosen for it is one
      whose key is the name once spaces are removed; so two required names
      never share a header. */
  lemma MatchHeaderKey(columns: seq<string>, need: string)
    requires ' ' !in need
    requires MatchHeader(HeaderIndex(columns), need).Some?
    ensures NoSpaces(HeaderKey(MatchHeader(HeaderIndex(columns), need).value)) == need
  {
    MatchHeaderIsReference(columns, need);
    if LastWithKey(columns, need).Some? {
      NoSpacesKeeps(need);
    }
  }

  // ---------------------------------------------------------------------------
  // normalize_input_df

  /** The `req` dict after looking up `needs` in order: the header chosen for
      each, or the error for the first one that has none. */
  function Matched(index: seq<(string, string)>, needs: seq<string>): (r: Result<map<string, string>>)
    ensures r.Ok? ==> forall need :: need in needs ==> need in r.value
  {
    if needs == [] then Ok(map[])
    else
      var need := needs[|needs| - 1];
      var req :- Matched(index, needs[..|needs| - 1]);
      match MatchHeader(index, need)
      case Some(c) => Ok(req[need := c])
      case None => Err(MissingColumn(need))
  }

  /** One more name looked up. */
  lemma MatchedStep(index: seq<(string, string)>, needs: seq<string>, n: nat, req: map<string, string>)
    requires n < |needs| && Matched(index, needs[..n]) == Ok(req)
    ensures Matched(index, needs[..n + 1]) ==
            match MatchHeader(index, needs[n])
            case Some(c) => Ok(req[needs[n] := c])
            case None => Err(MissingColumn(needs[n]))
  {
    assert needs[..n + 1][..n] == needs[..n];
  }

  /** Once a required name is missing, the names after it are not looked at. */
  lemma {:induction false} MatchedStopsAtError(index: seq<(string, string)>, needs: seq<string>, n: nat)
    requires n <= |needs| && Matched(index, needs[..n]).Err?
    ensures Matched(index, needs) == Matched(index, needs[..n])
    decreases |needs| - n
  {
    if n < |needs| {
      assert needs[..n + 1][..n] == needs[..n];
      MatchedStopsAtError(index, needs, n + 1);
    } else {
      assert needs[..n] == needs;
    }
  }

  /** `out[mask]` with `parsed_ts` added: the cell `safe_parse_dt` makes of a
      timestamp cell. */
  function ParsedCell(rt: Runtime, v: Value): Value {
    match rt.parseCell(v)
    case Some(d) => Stamp(d)
    case None => Null
  }

  /** The column renaming applied to the copy of the table. */
  function Relabeling(req: map<string, string>): (m: map<string, string>)
    requires forall need :: need in REQUIRED ==> need in req
    ensures m.Keys == {req["timestamp"], req["lat"], req["lon"]}
    ensures forall c :: c in m ==> m[c] in REQUIRED
  {
    map[req["timestamp"] := "timestamp", req["lat"] := "lat", req["lon"] := "lon"]
  }

  /** Parse the `timestamp` column of a renamed table into `parsed_ts` and keep
      the rows where it parsed. */
  function WithParsed(rt: Runtime, out: Table): (r: Result<Table>)
    requires WellFormed(out)
    ensures r.Ok? <==> Count(out.columns, "timestamp") == 1
    ensures r.Err? ==> r == Err(MissingKey("'timestamp'")) || r == Err(AmbiguousTruth)
    ensures r.Ok? ==> WellFormed(r.value) && "timestamp" in r.value.columns && "parsed_ts" in r.value.columns
  {
    var c := Count(out.columns, "timestamp");
    if c == 0 then Err(MissingKey("'timestamp'"))
    else if c > 1 then Err(AmbiguousTruth)
    else
      var k := IndexOf(out.columns, "timestamp");
      var parsed := seq(|out.rows|, i requires 0 <= i < |out.rows| => ParsedCell(rt, out.rows[i][k]));
      var t := WithColumn(out, "parsed_ts", parsed);
      Ok(Mask(t, seq(|parsed|, i requires 0 <= i < |parsed| => parsed[i] != Null)))
  }

  /** `normalize_input_df(df)`. */
  function Normalized(rt: Runtime, df: Table): (r: Result<Table>)
    requires WellFormed(df)
    ensures r.Ok? ==> WellFormed(r.value) && "timestamp" in r.value.columns && "parsed_ts" in r.value.columns
  {
    var req :- Matched(HeaderIndex(df.columns), REQUIRED);
    WithParsed(rt, Table(Rename(df.columns, Relabeling(req)), df.rows))
  }

  /** `normalize_input_df`: match the required headers in order, rename them on
      a copy, parse the timestamps and drop the rows that do not parse. The
      argument is a value, so the caller's table is left as it was. */
  method NormalizeInputDf(rt: Runtime, df: Table) returns (r: Result<Table>)
    requires WellFormed(df)
    ensures r == Normalized(rt, df)
  {
    var cols := HeaderIndex(df.columns);
    var req: map<string, string> := map[];
    for n := 0 to |REQUIRED|
      invariant Matched(cols, REQUIRED[..n]) == Ok(req)
    {
      var need := REQUIRED[n];
      MatchedStep(cols, REQUIRED, n, req);
      match Get(cols, need) {
        case Some(c) =>
          req := req[need := c];
        case None =>
          var alts := FirstAlt(Keys(cols), need);
          if alts.Some? {
            req := req[need := Get(cols, alts.value).value];
          } else {
            r := Err(MissingColumn(need));
            MatchedStopsAtError(cols, REQUIRED, n + 1);
            return;
          }
      }
    }
    assert REQUIRED[..|REQUIRED|] == REQUIRED;
    var out := df;
    out := out.(columns := Rename(out.columns, Relabeling(req)));
    r := WithParsed(rt, out);
  }

  /** The required names are looked up in the order timestamp, lat, lon, and
      the first one with no header is the one the error names. */
  lemma MatchedRequired(index: seq<(string, string)>)
    ensures Matched(index, REQUIRED) ==
      if MatchHeader(index, "timestamp").None? then Err(MissingColumn("timestamp"))
      else if MatchHeader(index, "lat").None? then Err(MissingColumn("lat"))
      else if MatchHeader(index, "lon").None? then Err(MissingColumn("lon"))
      else Ok(map["timestamp" := MatchHeader(index, "timestamp").value,
                  "lat" := MatchHeader(index, "lat").value,
                  "lon" := MatchHeader(index, "lon").value])
  {
    var a, b := MatchHeader(index, "timestamp"), MatchHeader(index, "lat");
    assert REQUIRED[..3] == REQUIRED;
    MatchedFirst(index);
    if a.None? {
      MatchedStopsAtError(index, REQUIRED, 1);
    } else {
      MatchedSecond(index, a.value);
      if b.None? {
        MatchedStopsAtError(index, REQUIRED, 2);
      } else {
        MatchedThird(index, a.value, b.value);
      }
    }
  }

  lemma MatchedFirst(index: seq<(string, string)>)
    ensures Matched(index, REQUIRED[..1]) ==
              match MatchHeader(index, "timestamp")
              case Some(a) => Ok(map["timestamp" := a])
              case None => Err(MissingColumn("timestamp"))
  {
    assert REQUIRED[..0] == [];
    MatchedStep(index, REQUIRED, 0, map[]);
  }

  lemma MatchedSecond(index: seq<(string, string)>, a: string)
    requires Matched(index, REQUIRED[..1]) == Ok(map["timestamp" := a])
    ensures Matched(index, REQUIRED[..2]) ==
              match MatchHeader(index, "lat")
              case Some(b) => Ok(map["timestamp" := a, "lat" := b])
              case None => Err(MissingColumn("lat"))
  {
    MatchedStep(index, REQUIRED, 1, map["timestamp" := a]);
  }

  lemma MatchedThird(index: seq<(string, string)>, a: string, b: string)
    requires Matched(index, REQUIRED[..2]) == Ok(map["timestamp" := a, "lat" := b])
    ensures Matched(index, REQUIRED[..3]) ==
              match MatchHeader(index, "lon")
              case Some(c) => Ok(map["timestamp" := a, "lat" := b, "lon" := c])
              case None => Err(MissingColumn("lon"))
  {
    MatchedStep(index, REQUIRED, 2, map["timestamp" := a, "lat" := b]);
  }

  /** Renaming three distinct labels to `timestamp`, `lat` and `lon`. */
  lemma RenameThree(cols: seq<string>, ts: string, lat: string, lon: string)
    requires ts != lat && ts != lon && lat != lon
    requires ts in cols && lat in cols && lon in cols
    ensures forall i :: 0 <= i < |cols| ==>
      Rename(cols, map[ts := "timestamp", lat := "lat", lon := "lon"])[i] ==
        if ts == cols[i] then "timestamp" else if lat == cols[i] then "lat"
        else if lon == cols[i] then "lon" else cols[i]
    ensures forall need :: need in REQUIRED ==> need in Rename(cols, map[ts := "timestamp", lat := "lat", lon := "lon"])
  {
    var r := Rename(cols, map[ts := "timestamp", lat := "lat", lon := "lon"]);
    assert r[IndexOf(cols, ts)] == "timestamp";
    assert r[IndexOf(cols, lat)] == "lat";
    assert r[IndexOf(cols, lon)] == "lon";
  }

  lemma RequiredHaveNoSpaces()
    ensures ' ' !in "timestamp" && ' ' !in "lat" && ' ' !in "lon"
  {
  }

  /** The headers chosen for the three required names are three distinct
      columns of the table. */
  lemma ChosenHeaders(columns: seq<string>)
    requires MatchHeader(HeaderIndex(columns), "timestamp").Some?
    requires MatchHeader(HeaderIndex(columns), "lat").Some?
    requires MatchHeader(HeaderIndex(columns), "lon").Some?
    ensures var index := HeaderIndex(columns);
      var ts, lat, lon := MatchHeader(index, "timestamp").value, MatchHeader(index, "lat").value,
                          MatchHeader(index, "lon").value;
      ts != lat && ts != lon && lat != lon && ts in columns && lat in columns && lon in columns
  {
    RequiredHaveNoSpaces();
    MatchHeaderKey(columns, "timestamp");
    MatchHeaderKey(columns, "lat");
    MatchHeaderKey(columns, "lon");
    MatchHeaderIsAColumn(columns, "timestamp");
    MatchHeaderIsAColumn(columns, "lat");
    MatchHeaderIsAColumn(columns, "lon");
  }

  /** `normalize_input_df` fails only with the error naming the first missing
      required column, or, when renaming leaves two columns labelled
      `timestamp`, with pandas' ambiguity error; the renamed timestamp column
      is always found. */
  lemma NormalizedErrors(rt: Runtime, df: Table)
    requires WellFormed(df)
    ensures var index := HeaderIndex(df.columns);
      if MatchHeader(index, "timestamp").None? then Normalized(rt, df) == Err(MissingColumn("timestamp"))
      else if MatchHeader(index, "lat").None? then Normalized(rt, df) == Err(MissingColumn("lat"))
      else if MatchHeader(index, "lon").None? then Normalized(rt, df) == Err(MissingColumn("lon"))
      else Matched(index, REQUIRED).Ok? &&
           var cols := Rename(df.columns, Relabeling(Matched(index, REQUIRED).value));
           "timestamp" in cols &&
           (Normalized(rt, df).Ok? <==> Count(cols, "timestamp") == 1) &&
           (Normalized(rt, df).Err? ==> Normalized(rt, df) == Err(AmbiguousTruth))
  {
    var index := HeaderIndex(df.columns);
    MatchedRequired(index);
    if Matched(index, REQUIRED).Ok? {
      var ts, lat, lon := MatchHeader(index, "timestamp").value, MatchHeader(index, "lat").value,
                          MatchHeader(index, "lon").value;
      assert Relabeling(Matched(index, REQUIRED).value) == map[ts := "timestamp", lat := "lat", lon := "lon"];
      ChosenHeaders(df.columns);
      RenameThree(df.columns, ts, lat, lon);
    }
  }

  /** The rows kept are exactly the rows of `t0` whose timestamp parses, in
      their original order, each with its parsed timestamp stored under
      `parsed_ts`; the labels are those of `t0`, with `parsed_ts` added at the
      right unless a column already carries that label. `Normalized` applies
      this to the renamed copy of the input. */
  lemma WithParsedRows(rt: Runtime, t0: Table)
    requires WellFormed(t0) && WithParsed(rt, t0).Ok?
    ensures var out := WithParsed(rt, t0).value;
      "timestamp" in t0.columns &&
      out.columns == (if "parsed_ts" in t0.columns then t0.columns else t0.columns + ["parsed_ts"]) &&
      var k := IndexOf(t0.columns, "timestamp");
      var idx := Kept(seq(|t0.rows|, i requires 0 <= i < |t0.rows| => rt.parseCell(t0.rows[i][k]).Some?));
      |out.rows| == |idx| &&
      forall j :: 0 <= j < |idx| ==>
        out.rows[j] == Put(t0.rows[idx[j]], t0.columns, "parsed_ts", Stamp(rt.parseCell(t0.rows[idx[j]][k]).value))
  {
    var k := IndexOf(t0.columns, "timestamp");
    var parsed := seq(|t0.rows|, i requires 0 <= i < |t0.rows| => ParsedCell(rt, t0.rows[i][k]));
    var keep := seq(|parsed|, i requires 0 <= i < |parsed| => parsed[i] != Null);
    assert keep == seq(|t0.rows|, i requires 0 <= i < |t0.rows| => rt.parseCell(t0.rows[i][k]).Some?);
    var t := WithColumn(t0, "parsed_ts", parsed);
    assert WithParsed(rt, t0).value == Mask(t, keep);
  }
}
