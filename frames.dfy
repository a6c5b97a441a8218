/** The part of a pandas DataFrame the glue relies on: column labels in order,
    rows of cells aligned with them, renaming columns through a mapping, and
    selecting columns by name. */
module Frames {
  import opened Python

  /** A table: its column labels and its rows, each row one cell per column. */
  datatype Table = Table(columns: seq<string>, rows: seq<seq<Value>>)

  /** Every row has one cell per column. */
  predicate WellFormed(t: Table) {
    forall i :: 0 <= i < |t.rows| ==> |t.rows[i]| == |t.columns|
  }

  /** The position of the first column labelled `x`. */
  function IndexOf(s: seq<string>, x: string): (i: nat)
    requires x in s
    ensures i < |s| && s[i] == x
    ensures forall j :: 0 <= j < i ==> s[j] != x
  {
    if s[0] == x then 0 else 1 + IndexOf(s[1..], x)
  }

  /** In a list of distinct labels a name is found where it stands. */
  lemma IndexOfDistinct(s: seq<string>, i: nat)
    requires Distinct(s) && i < |s|
    ensures IndexOf(s, s[i]) == i
  {
  }

  /** How often `x` occurs in `s`. */
  function Count(s: seq<string>, x: string): (n: nat)
    ensures n > 0 <==> x in s
  {
    if s == [] then 0 else (if s[0] == x then 1 else 0) + Count(s[1..], x)
  }

  /** `df.rename(columns=m)`: each name the mapping names is replaced by its
      image, every other name is kept, and the cells do not move. */
  function Rename(cols: seq<string>, m: map<string, string>): (r: seq<string>)
    ensures |r| == |cols|
    ensures forall i {:trigger r[i]} :: 0 <= i < |cols| ==> r[i] == if cols[i] in m then m[cols[i]] else cols[i]
  {
    seq(|cols|, i requires 0 <= i < |cols| => if cols[i] in m then m[cols[i]] else cols[i])
  }

  /** `df[labels]`: the columns named in `labels`, in that order, each taken
      from the first column with that name. */
  function Select(t: Table, labels: seq<string>): (r: Table)
    requires forall l :: l in labels ==> l in t.columns
    requires WellFormed(t)
    ensures r.columns == labels && |r.rows| == |t.rows| && WellFormed(r)
    ensures forall i, j {:trigger r.rows[i][j]} :: 0 <= i < |t.rows| && 0 <= j < |labels| ==>
              r.rows[i][j] == t.rows[i][IndexOf(t.columns, labels[j])]
  {
    Table(labels, seq(|t.rows|, i requires 0 <= i < |t.rows| =>
                    seq(|labels|, j requires 0 <= j < |labels| => t.rows[i][IndexOf(t.columns, labels[j])])))
  }

  /** A row after `t[name] = ...` stores `cell` in it: in place of the first
      column called `name`, or as a new last cell. */
  function Put(row: seq<Value>, columns: seq<string>, name: string, cell: Value): (r: seq<Value>)
    requires |row| == |columns|
    ensures |r| == if name in columns then |row| else |row| + 1
  {
    if name in columns then row[IndexOf(columns, name) := cell] else row + [cell]
  }

  /** `t[name] = cells`: an existing column (the first with that label) gets
      the new cells, otherwise the column is appended at the right. */
  function WithColumn(t: Table, name: string, cells: seq<Value>): (r: Table)
    requires WellFormed(t) && |cells| == |t.rows|
    ensures WellFormed(r) && |r.rows| == |t.rows| && name in r.columns
    ensures r.columns == if name in t.columns then t.columns else t.columns + [name]
    ensures forall i {:trigger r.rows[i]} :: 0 <= i < |t.rows| ==> r.rows[i] == Put(t.rows[i], t.columns, name, cells[i])
  {
    Table(if name in t.columns then t.columns else t.columns + [name],
          seq(|t.rows|, i requires 0 <= i < |t.rows| => Put(t.rows[i], t.columns, name, cells[i])))
  }

  /** The positions holding `true`, in increasing order. */
  function Kept(keep: seq<bool>): (idx: seq<nat>)
    ensures forall j :: 0 <= j < |idx| ==> idx[j] < |keep| && keep[idx[j]]
    ensures forall j, j' :: 0 <= j < j' < |idx| ==> idx[j] < idx[j']
    ensures forall i :: 0 <= i < |keep| && keep[i] ==> i in idx
  {
    if keep == [] then []
    else
      var n := |keep| - 1;
      var before := Kept(keep[..n]);
      if keep[n] then before + [n] else before
  }

  /** `t[mask]`: the rows whose mask entry is true, in their order. */
  function Mask(t: Table, keep: seq<bool>): (r: Table)
    requires |keep| == |t.rows|
    ensures r.columns == t.columns && |r.rows| == |Kept(keep)|
    ensures forall j {:trigger r.rows[j]} :: 0 <= j < |r.rows| ==> r.rows[j] == t.rows[Kept(keep)[j]]
  {
    var idx := Kept(keep);
    Table(t.columns, seq(|idx|, j requires 0 <= j < |idx| => t.rows[idx[j]]))
  }

  /** `cols` followed by the names of `keys` it lacks, each once, in the order
      they come. */
  function AddNew(cols: seq<string>, keys: seq<string>): (r: seq<string>)
    decreases |keys|
  {
    if keys == [] then cols
    else AddNew(if keys[0] in cols then cols else cols + [keys[0]], keys[1..])
  }

  /** Adding names keeps the labels already there, in front and in order, adds
      exactly the missing names, and never repeats one. */
  lemma {:induction false} AddNewExtends(cols: seq<string>, keys: seq<string>)
    ensures |AddNew(cols, keys)| >= |cols| && AddNew(cols, keys)[..|cols|] == cols
    ensures forall c :: c in AddNew(cols, keys) <==> c in cols || c in keys
    ensures Distinct(cols) ==> Distinct(AddNew(cols, keys))
    decreases |keys|
  {
    if keys != [] {
      var next := if keys[0] in cols then cols else cols + [keys[0]];
      AddNewExtends(next, keys[1..]);
      var r := AddNew(next, keys[1..]);
      assert r[..|cols|] == r[..|next|][..|cols|];
      assert forall c :: c in keys <==> c == keys[0] || c in keys[1..];
    }
  }

  /** The labels `pd.DataFrame(records)` gives: the keys of the records, each
      once, in order of first appearance. */
  function LabelsOf(records: seq<Dict>): seq<string> {
    if records == [] then []
    else AddNew(LabelsOf(records[..|records| - 1]), Keys(records[|records| - 1]))
  }

  /** Every label is a key of some record and every key of a record is a
      label, once. */
  lemma {:induction false} LabelsOfKeys(records: seq<Dict>)
    ensures Distinct(LabelsOf(records))
    ensures forall c :: c in LabelsOf(records) <==> exists i :: 0 <= i < |records| && c in Keys(records[i])
  {
    if records != [] {
      var m := |records| - 1;
      var before := records[..m];
      LabelsOfKeys(before);
      AddNewExtends(LabelsOf(before), Keys(records[m]));
      var b, r := LabelsOf(before), LabelsOf(records);
      forall c | c in r
        ensures exists i :: 0 <= i < |records| && c in Keys(records[i])
      {
        if c in b {
          var i :| 0 <= i < |before| && c in Keys(before[i]);
          assert before[i] == records[i];
        }
      }
      forall c, i | 0 <= i < |records| && c in Keys(records[i])
        ensures c in r
      {
        if i < m {
          assert before[i] == records[i];
        }
      }
    }
  }

  /** The labels of the first `n` records come first, in their order. */
  lemma {:induction false} LabelsOfPrefix(records: seq<Dict>, n: nat)
    requires n <= |records|
    ensures |LabelsOf(records[..n])| <= |LabelsOf(records)|
    ensures LabelsOf(records)[..|LabelsOf(records[..n])|] == LabelsOf(records[..n])
    decreases |records|
  {
    if n == |records| {
      assert records[..n] == records;
    } else {
      var m := |records| - 1;
      var before := records[..m];
      LabelsOfPrefix(before, n);
      assert before[..n] == records[..n];
      AddNewExtends(LabelsOf(before), Keys(records[m]));
      var b, r, p := LabelsOf(before), LabelsOf(records), LabelsOf(records[..n]);
      assert r[..|p|] == r[..|b|][..|p|];
    }
  }

  /** `pd.DataFrame(records)`: one row per record; under each label the
      record's value, or None where the record lacks the key (pandas writes
      NaN there). */
  function FromRecords(records: seq<Dict>): (t: Table)
    ensures t.columns == LabelsOf(records) && |t.rows| == |records| && WellFormed(t)
  {
    var cols := LabelsOf(records);
    Table(cols, seq(|records|, i requires 0 <= i < |records| =>
                  seq(|cols|, j requires 0 <= j < |cols| => GetOr(records[i], cols[j], Null))))
  }

  /** Each row holds its record: a key of the record under its label, None
      under the labels of the other records. */
  lemma FromRecordsCell(records: seq<Dict>, i: nat, c: string)
    requires i < |records| && c in LabelsOf(records)
    ensures var t := FromRecords(records);
            t.rows[i][IndexOf(t.columns, c)] == if c in Keys(records[i]) then Get(records[i], c).value else Null
  {
  }
}
