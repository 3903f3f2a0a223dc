/** The time-series CSV parser `parseCSV`, identical in both scripts: split
    the text on newlines, drop the header line, split every other line on
    commas and keep the lines that have exactly four fields, filling four
    parallel arrays. `parseFloat` is a parameter of the model. */
module Csv {

  /** JavaScript `s.split(sep)` for a one-character separator: the pieces
      between separators, so there is always at least one (possibly empty). */
  function Split(s: string, sep: char): (parts: seq<string>)
    ensures |parts| >= 1
    ensures forall i :: 0 <= i < |parts| ==> sep !in parts[i]
    ensures sep !in s ==> parts == [s]
  {
    if s == [] then [[]]
    else if s[0] == sep then [[]] + Split(s[1..], sep)
    else
      var rest := Split(s[1..], sep);
      assert sep !in s ==> [s[0]] + rest[0] == s;
      [[s[0]] + rest[0]] + rest[1..]
  }

  /** `parts.join(sep)`, the inverse of Split. */
  function Join(parts: seq<string>, sep: char): string
    requires |parts| >= 1
  {
    if |parts| == 1 then parts[0] else parts[0] + [sep] + Join(parts[1..], sep)
  }

  /** Join of a first piece and at least one more. */
  lemma JoinCons(p: string, rest: seq<string>, sep: char)
    requires |rest| >= 1
    ensures Join([p] + rest, sep) == p + [sep] + Join(rest, sep)
  {
    assert ([p] + rest)[1..] == rest;
  }

  /** A character put in front of the first piece goes in front of the join. */
  lemma JoinExtendHead(c: char, rest: seq<string>, sep: char)
    requires |rest| >= 1
    ensures Join([[c] + rest[0]] + rest[1..], sep) == [c] + Join(rest, sep)
  {
    if |rest| > 1 {
      JoinCons([c] + rest[0], rest[1..], sep);
      JoinCons(rest[0], rest[1..], sep);
      assert [rest[0]] + rest[1..] == rest;
    }
  }

  /** Joining the pieces of a split gives back the text. */
  lemma {:induction false} JoinSplit(s: string, sep: char)
    ensures Join(Split(s, sep), sep) == s
  {
    if s != [] {
      var rest := Split(s[1..], sep);
      JoinSplit(s[1..], sep);
      if s[0] == sep {
        JoinCons([], rest, sep);
        assert [sep] + s[1..] == s;
      } else {
        JoinExtendHead(s[0], rest, sep);
        assert [s[0]] + s[1..] == s;
      }
    }
  }

  /** Splitting a join of separator-free pieces gives back the pieces. */
  lemma {:induction false} SplitJoin(parts: seq<string>, sep: char)
    requires |parts| >= 1
    requires forall i :: 0 <= i < |parts| ==> sep !in parts[i]
    ensures Split(Join(parts, sep), sep) == parts
  {
    if |parts| == 1 {
      assert Join(parts, sep) == parts[0];
    } else {
      SplitJoin(parts[1..], sep);
      SplitPrefix(parts[0], Join(parts[1..], sep), sep);
      assert [parts[0]] + parts[1..] == parts;
    }
  }

  /** A separator-free prefix followed by the separator is the first piece. */
  lemma {:induction false} SplitPrefix(p: string, t: string, sep: char)
    requires sep !in p
    ensures Split(p + [sep] + t, sep) == [p] + Split(t, sep)
  {
    if p == [] {
      assert p + [sep] + t == [sep] + t;
      assert ([sep] + t)[1..] == t;
    } else {
      var s := p + [sep] + t;
      assert s[0] == p[0] && s[1..] == p[1..] + [sep] + t;
      SplitPrefix(p[1..], t, sep);
      assert [p[0]] + p[1..] == p;
    }
  }

  /** The lines after the header: `csvData.split("\n").slice(1)`. */
  function Rows(csv: string): seq<string> {
    Split(csv, '\n')[1..]
  }

  /** The fields of the rows that have exactly four of them, in row order. */
  function Records(rows: seq<string>): (rs: seq<seq<string>>)
    ensures |rs| <= |rows|
    ensures forall j :: 0 <= j < |rs| ==> |rs[j]| == 4
  {
    if rows == [] then []
    else
      var last := Split(rows[|rows| - 1], ',');
      Records(rows[..|rows| - 1]) + (if |last| == 4 then [last] else [])
  }

  /** Four parallel arrays keyed by position, as `parseCSV` returns them;
      F is the type of the `parseFloat` results. */
  datatype Series<F> = Series(dates: seq<string>, medians: seq<F>, lowerCIs: seq<F>, upperCIs: seq<F>)

  /** `data` holds, position by position, the date and the three parsed
      numbers of each kept record, and nothing else. */
  ghost predicate IsParseOf<F>(data: Series<F>, csv: string, parseFloat: string -> F) {
    var records := Records(Rows(csv));
    && |data.dates| == |data.medians| == |data.lowerCIs| == |data.upperCIs| == |records|
    && forall j :: 0 <= j < |data.dates| ==>
      && data.dates[j] == records[j][0]
      && data.medians[j] == parseFloat(records[j][1])
      && data.lowerCIs[j] == parseFloat(records[j][2])
      && data.upperCIs[j] == parseFloat(records[j][3])
  }

  /** `parseCSV`: one loop over the rows pushing onto four arrays. */
  method ParseCsv<F>(csv: string, parseFloat: string -> F) returns (data: Series<F>)
    ensures IsParseOf(data, csv, parseFloat)
  {
    var rows := Rows(csv);
    var dates: seq<string> := [];
    var medians: seq<F> := [];
    var lowerCIs: seq<F> := [];
    var upperCIs: seq<F> := [];
    var i := 0;
    while i < |rows|
      invariant 0 <= i <= |rows|
      invariant |dates| == |medians| == |lowerCIs| == |upperCIs| == |Records(rows[..i])|
      invariant forall j :: 0 <= j < |dates| ==>
        var fields := Records(rows[..i])[j];
        && dates[j] == fields[0]
        && medians[j] == parseFloat(fields[1])
        && lowerCIs[j] == parseFloat(fields[2])
        && upperCIs[j] == parseFloat(fields[3])
    {
      var columns := Split(rows[i], ',');
      assert rows[..i + 1][..i] == rows[..i];
      if |columns| == 4 {
        dates := dates + [columns[0]];
        medians := medians + [parseFloat(columns[1])];
        lowerCIs := lowerCIs + [parseFloat(columns[2])];
        upperCIs := upperCIs + [parseFloat(columns[3])];
      }
      i := i + 1;
    }
    assert rows[..i] == rows;
    data := Series(dates, medians, lowerCIs, upperCIs);
  }

  // ---------------------------------------------------------------------
  // What Records keeps

  /** Records distributes over concatenation, so the kept rows stay in
      source order and each row is judged on its own. */
  lemma {:induction false} RecordsAppend(a: seq<string>, b: seq<string>)
    ensures Records(a + b) == Records(a) + Records(b)
  {
    if b == [] {
      assert a + b == a;
    } else {
      var b' := b[..|b| - 1];
      RecordsAppend(a, b');
      assert (a + b)[..|a + b| - 1] == a + b';
      assert (a + b)[|a + b| - 1] == b[|b| - 1];
    }
  }

  /** A single row is kept exactly when it has four fields. */
  lemma RecordsSingle(row: string)
    ensures Records([row]) == if |Split(row, ',')| == 4 then [Split(row, ',')] else []
  {
    assert [row][..0] == [];
  }

  /** A row without exactly four fields (three, five, a blank line)
      contributes nothing wherever it stands. */
  lemma RecordsSkipRow(a: seq<string>, row: string, b: seq<string>)
    requires |Split(row, ',')| != 4
    ensures Records(a + [row] + b) == Records(a + b)
  {
    RecordsAppend(a + [row], b);
    RecordsAppend(a, [row]);
    RecordsSingle(row);
    RecordsAppend(a, b);
  }

  /** Every row with four fields is kept. */
  lemma RowIsRecorded(rows: seq<string>, i: nat)
    requires i < |rows| && |Split(rows[i], ',')| == 4
    ensures Split(rows[i], ',') in Records(rows)
  {
    assert rows == rows[..i] + ([rows[i]] + rows[i + 1..]);
    RecordsAppend(rows[..i], [rows[i]] + rows[i + 1..]);
    RecordsAppend([rows[i]], rows[i + 1..]);
    RecordsSingle(rows[i]);
  }

  /** Every kept record is the field list of some row. */
  lemma {:induction false} RecordHasRow(rows: seq<string>, fields: seq<string>)
    requires fields in Records(rows)
    ensures exists i :: 0 <= i < |rows| && Split(rows[i], ',') == fields
  {
    var init := rows[..|rows| - 1];
    if fields in Records(init) {
      RecordHasRow(init, fields);
      var i :| 0 <= i < |init| && Split(init[i], ',') == fields;
      assert rows[i] == init[i];
    } else {
      assert Split(rows[|rows| - 1], ',') == fields;
    }
  }

  /** A field list is a kept record exactly when some row splits into it
      and it has four fields. */
  lemma RecordsMembers(rows: seq<string>, fields: seq<string>)
    ensures fields in Records(rows) <==>
      exists i :: 0 <= i < |rows| && Split(rows[i], ',') == fields && |fields| == 4
  {
    if fields in Records(rows) {
      RecordHasRow(rows, fields);
    }
    if exists i :: 0 <= i < |rows| && Split(rows[i], ',') == fields && |fields| == 4 {
      var i :| 0 <= i < |rows| && Split(rows[i], ',') == fields && |fields| == 4;
      RowIsRecorded(rows, i);
    }
  }

  /** Text without a newline is all header: there are no rows, so the four
      arrays are empty. This covers the empty text. */
  lemma HeaderOnlyHasNoRows(csv: string)
    requires '\n' !in csv
    ensures Rows(csv) == [] && Records(Rows(csv)) == []
  {
  }
}
