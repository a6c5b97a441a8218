/** The slice of Python's data model that the weather glue works on: JSON-like
    values, insertion-ordered dicts, timezone-aware and naive datetimes, the
    exceptions the core can raise, and the library calls (float() on a string,
    ISO-8601 parsing and formatting, pandas' datetime coercion) that the model
    leaves abstract. */
module Python {

  datatype Option<T> = None | Some(value: T)

  /** The exceptions that can escape the core, by what raised them. `Describe`
      gives the text `str(e)` has; the wording is representative of CPython's
      and pandas', not a copy of it. */
  datatype Failure =
    | CannotConvert(text: string)                 // ValueError: float() of a string that is no number
    | NotANumber(typeName: string)                // TypeError: float() of an unsupported type
    | NoAttribute(typeName: string, attr: string) // AttributeError
    | NotIterable(typeName: string)               // TypeError: iterating a non-iterable
    | NoLength(typeName: string)                  // TypeError: len() of a value without one
    | MissingKey(repr: string)                    // KeyError, carrying the key's repr
    | MissingColumn(name: string)                 // ValueError raised by normalize_input_df
    | AmbiguousTruth                              // ValueError: truth value of a pandas Series

  /** A computation that may raise. */
  datatype Result<T> = Ok(value: T) | Err(failure: Failure) {
    predicate IsFailure() { Err? }
    function PropagateFailure<U>(): Result<U> requires Err? { Err(failure) }
    function Extract(): T requires Ok? { value }
  }

  /** The text of an exception, as `str(e)` renders it. */
  function Describe(f: Failure): string {
    match f
    case CannotConvert(t) => "could not convert string to float: '" + t + "'"
    case NotANumber(n) => "float() argument must be a string or a real number, not '" + n + "'"
    case NoAttribute(n, a) => "'" + n + "' object has no attribute '" + a + "'"
    case NotIterable(n) => "'" + n + "' object is not iterable"
    case NoLength(n) => "object of type '" + n + "' has no len()"
    case MissingKey(k) => k
    case MissingColumn(c) => "Missing required column: " + c
    case AmbiguousTruth =>
      "The truth value of a Series is ambiguous. Use a.empty, a.bool(), a.item(), a.any() or a.all()."
  }

  // ---------------------------------------------------------------------------
  // Datetimes

  /** Python's datetime resolution is the microsecond; all times below count them. */
  const SECOND: int := 1_000_000
  const HOUR: int := 3600 * SECOND

  /** A datetime: its wall-clock reading, in microseconds since 1970-01-01T00:00
      on that clock, and its UTC offset in microseconds (None for a naive one). */
  datatype DateTime = DateTime(wall: int, offset: Option<int>)

  /** The UTC instant a datetime denotes; a naive datetime is read as UTC, which is
      what `replace(tzinfo=timezone.utc)` does to it. */
  function Utc(d: DateTime): int {
    match d.offset
    case None => d.wall
    case Some(o) => d.wall - o
  }

  /** The same instant as an aware UTC datetime (`astimezone(timezone.utc)`, or
      `replace(tzinfo=timezone.utc)` for a naive one). */
  function AsUtc(d: DateTime): (r: DateTime)
    ensures r.offset == Some(0) && Utc(r) == Utc(d)
  {
    DateTime(Utc(d), Some(0))
  }

  // ---------------------------------------------------------------------------
  // Values

  /** A Python value as JSON decoding or a table cell produces it. Dicts keep
      their insertion order, which the core's fallbacks depend on. */
  datatype Value =
    | Null
    | Bool(b: bool)
    | Num(x: real)
    | Str(s: string)
    | Stamp(t: DateTime)
    | Obj(entries: seq<(string, Value)>)
    | Arr(items: seq<Value>)

  /** An insertion-ordered dict with string keys. */
  type Dict = seq<(string, Value)>

  /** Python truthiness (`if x:` / `x or y`). */
  predicate Truthy(v: Value) {
    match v
    case Null => false
    case Bool(b) => b
    case Num(x) => x != 0.0
    case Str(s) => s != ""
    case Stamp(_) => true
    case Obj(e) => e != []
    case Arr(a) => a != []
  }

  /** `type(v).__name__`. */
  function TypeName(v: Value): string {
    match v
    case Null => "NoneType"
    case Bool(_) => "bool"
    case Num(_) => "float"
    case Str(_) => "str"
    case Stamp(_) => "datetime"
    case Obj(_) => "dict"
    case Arr(_) => "list"
  }

  /** The exception `v.get(...)` raises when `v` is not a dict. */
  function NoGet(v: Value): Failure {
    NoAttribute(TypeName(v), "get")
  }

  // ---------------------------------------------------------------------------
  // Insertion-ordered dicts

  function Keys<V>(d: seq<(string, V)>): (ks: seq<string>)
    ensures |ks| == |d| && forall i {:trigger ks[i]} :: 0 <= i < |d| ==> ks[i] == d[i].0
  {
    if d == [] then [] else [d[0].0] + Keys(d[1..])
  }

  lemma KeysConcat<V>(a: seq<(string, V)>, b: seq<(string, V)>)
    ensures Keys(a + b) == Keys(a) + Keys(b)
  {
  }

  predicate Distinct<T(==)>(s: seq<T>) {
    forall i, j :: 0 <= i < j < |s| ==> s[i] != s[j]
  }

  /** `d.get(k)`: the value stored under `k`, if any. */
  function Get<V>(d: seq<(string, V)>, k: string): (r: Option<V>)
    ensures r.Some? <==> k in Keys(d)
  {
    if d == [] then None
    else if d[0].0 == k then Some(d[0].1)
    else Get(d[1..], k)
  }

  /** What `get` finds is an entry of the dict. */
  lemma {:induction false} GetEntry<V>(d: seq<(string, V)>, k: string)
    requires Get(d, k).Some?
    ensures exists i :: 0 <= i < |d| && d[i] == (k, Get(d, k).value)
  {
    if d[0].0 != k {
      GetEntry(d[1..], k);
      var i :| 0 <= i < |d| - 1 && d[1..][i] == (k, Get(d, k).value);
      assert d[i + 1] == (k, Get(d, k).value);
    }
  }

  /** `d.get(k, default)`. */
  function GetOr(d: Dict, k: string, default: Value): Value {
    match Get(d, k)
    case Some(v) => v
    case None => default
  }

  /** `d[k] = v`: overwrite in place when `k` is present, else append. */
  function Set<V>(d: seq<(string, V)>, k: string, v: V): (r: seq<(string, V)>)
    ensures Get(r, k) == Some(v)
    ensures forall k' :: k' != k ==> Get(r, k') == Get(d, k')
    ensures Keys(r) == if k in Keys(d) then Keys(d) else Keys(d) + [k]
  {
    if d == [] then [(k, v)]
    else
      var t := if d[0].0 == k then d[1..] else Set(d[1..], k, v);
      var r := [if d[0].0 == k then (k, v) else d[0]] + t;
      ConsLookup(d[0], d[1..]);
      ConsLookup(r[0], t);
      r
  }

  /** Looking up in a dict whose first entry is `x`. */
  lemma ConsLookup<V>(x: (string, V), t: seq<(string, V)>)
    ensures Keys([x] + t) == [x.0] + Keys(t)
    ensures forall k :: Get([x] + t, k) == if x.0 == k then Some(x.1) else Get(t, k)
  {
    assert ([x] + t)[1..] == t;
  }

  /** With distinct keys, the entry at a position is the one `get` finds. */
  lemma {:induction false} GetAt<V>(d: seq<(string, V)>, i: nat)
    requires Distinct(Keys(d)) && i < |d|
    ensures Get(d, d[i].0) == Some(d[i].1)
  {
    if i > 0 {
      var ks, ts := Keys(d), Keys(d[1..]);
      assert ks[0] != ks[i];
      assert forall a, b :: 0 <= a < b < |ts| ==> ts[a] == ks[a + 1] && ts[b] == ks[b + 1];
      GetAt(d[1..], i - 1);
    }
  }

  lemma SetAbsentAppends<V>(d: seq<(string, V)>, k: string, v: V)
    requires k !in Keys(d)
    ensures Set(d, k, v) == d + [(k, v)]
  {
    if d != [] {
      SetAbsentAppends(d[1..], k, v);
    }
  }

  lemma SetKeepsDistinct<V>(d: seq<(string, V)>, k: string, v: V)
    requires Distinct(Keys(d))
    ensures Distinct(Keys(Set(d, k, v)))
  {
  }

  /** `d.update(e)`: every entry of `e`, in order, stored into `d`. */
  function Update(d: Dict, e: Dict): (r: Dict)
    decreases |e|
  {
    if e == [] then d else Update(Set(d, e[0].0, e[0].1), e[1..])
  }

  /** After `d.update(e)` (keys of `e` distinct), a key holds `e`'s value if `e`
      has it and `d`'s value otherwise; `d`'s keys come first, in their order. */
  lemma {:induction false} UpdateGet(d: Dict, e: Dict, k: string)
    requires Distinct(Keys(e))
    ensures Get(Update(d, e), k) == if k in Keys(e) then Get(e, k) else Get(d, k)
    decreases |e|
  {
    if e != [] {
      var d' := Set(d, e[0].0, e[0].1);
      assert Keys(e[1..]) == Keys(e)[1..];
      UpdateGet(d', e[1..], k);
      if k == e[0].0 {
        assert k !in Keys(e[1..]);
      }
    }
  }

  lemma {:induction false} UpdateKeysPrefix(d: Dict, e: Dict)
    ensures |Keys(Update(d, e))| >= |Keys(d)|
    ensures Keys(Update(d, e))[..|d|] == Keys(d)
    decreases |e|
  {
    if e != [] {
      var d' := Set(d, e[0].0, e[0].1);
      UpdateKeysPrefix(d', e[1..]);
      var u := Keys(Update(d', e[1..]));
      assert |d'| >= |d|;
      assert Keys(d')[..|d|] == Keys(d);
      assert u[..|d|] == u[..|d'|][..|d|];
    }
  }

  lemma {:induction false} UpdateKeysWithin(d: Dict, e: Dict, k: string)
    requires k in Keys(Update(d, e))
    ensures k in Keys(d) || k in Keys(e)
    decreases |e|
  {
    if e != [] {
      var d' := Set(d, e[0].0, e[0].1);
      UpdateKeysWithin(d', e[1..], k);
      assert Keys(e[1..]) == Keys(e)[1..];
    }
  }

  lemma {:induction false} UpdateKeepsDistinct(d: Dict, e: Dict)
    requires Distinct(Keys(d))
    ensures Distinct(Keys(Update(d, e)))
    decreases |e|
  {
    if e != [] {
      SetKeepsDistinct(d, e[0].0, e[0].1);
      UpdateKeepsDistinct(Set(d, e[0].0, e[0].1), e[1..]);
    }
  }

  // ---------------------------------------------------------------------------
  // float()

  /** `float(v)`, given how `float` reads a string (`parse`). NaN and infinities
      are outside the model: `parse` yields a real or nothing. */
  function FloatOf(parse: string -> Option<real>, v: Value): (r: Result<real>)
    ensures r.Ok? <==> (v.Num? || v.Bool? || (v.Str? && parse(v.s).Some?))
    ensures v.Num? ==> r == Ok(v.x)
  {
    match v
    case Num(x) => Ok(x)
    case Bool(b) => Ok(if b then 1.0 else 0.0)
    case Str(s) =>
      (match parse(s)
       case Some(x) => Ok(x)
       case None => Err(CannotConvert(s)))
    case _ => Err(NotANumber(TypeName(v)))
  }

  // ---------------------------------------------------------------------------
  // Library calls left abstract

  /** The library functions the core calls and the model does not define:
      - parseFloat: what `float()` makes of a string;
      - isoparse: `dateutil.parser.isoparse`;
      - isoformat: `datetime.isoformat`;
      - toUtc: `pd.to_datetime(s, utc=True, errors="coerce")`, None for NaT;
      - parseCell: `utils.safe_parse_dt` on one table cell, None for no datetime. */
  datatype Runtime = Runtime(
    parseFloat: string -> Option<real>,
    isoparse: string -> Option<DateTime>,
    isoformat: DateTime -> string,
    toUtc: string -> Option<DateTime>,
    parseCell: Value -> Option<DateTime>)
}
