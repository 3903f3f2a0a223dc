/** The map legend: `updateLegend` of the current script and the legend's
    `onAdd` of the legacy script. Both emit one row per entry of `grades`
    with the swatch `getColor(grades[i] + 1)` and the text `labels[i]`. */
module Legend {
  import opened Js
  import opened ColorScale

  datatype Row = Row(swatch: string, text: string)

  /** The legend box: its bold title and its rows, top to bottom. */
  datatype Box = Box(title: string, rows: seq<Row>)

  /** `grades`: 100, 200, ..., 2000 in the current script; 800, ..., 1200 in
      the legacy one. */
  function Grades(version: Version): (g: seq<real>)
    ensures |Thresholds(version)| <= |g| <= |Palette(version)|
  {
    match version
    case Current => seq(20, i => (100 * (i + 1)) as real)
    case Legacy => [800.0, 900.0, 1000.0, 1100.0, 1200.0]
  }

  /** `labels`: one per band of the colour scale, the lowest band first. */
  function Labels(version: Version): (ls: seq<string>)
    ensures |ls| == |Palette(version)|
  {
    match version
    case Current =>
      ["<100", "100-200", "200-300", "300-400", "400-500",
       "500-600", "600-700", "700-800", "800-900", "900-1000",
       "1000-1100", "1100-1200", "1200-1300", "1300-1400", "1400-1500",
       "1500-1600", "1600-1700", "1700-1800", "1800-1900", "> 1900"]
    case Legacy =>
      ["< 800", "800 - 900", "900 - 1000", "1000 - 1100", "1100 - 1200", "> 1200"]
  }

  function Title(variable: string): string {
    UpperAscii(variable) + " (mm)"
  }

  /** The `for` loop over `grades` that appends one row at a time: the
      swatch of the colour of `grades[i] + 1` beside `labels[i]`. */
  method LegendRows(version: Version, grades: seq<real>, labels: seq<string>) returns (rows: seq<Row>)
    requires |grades| <= |labels|
    ensures |rows| == |grades|
    ensures forall i :: 0 <= i < |rows| ==> rows[i] == Row(ColorFor(version, Some(grades[i] + 1.0)), labels[i])
  {
    rows := [];
    for i := 0 to |grades|
      invariant |rows| == i
      invariant forall k :: 0 <= k < i ==> rows[k] == Row(ColorFor(version, Some(grades[k] + 1.0)), labels[k])
    {
      rows := rows + [Row(ColorFor(version, Some(grades[i] + 1.0)), labels[i])];
    }
  }

  /** The legend box for a variable. */
  method BuildLegend(version: Version, variable: string) returns (box: Box)
    ensures box.title == Title(variable)
    ensures |box.rows| == |Grades(version)|
    ensures forall i :: 0 <= i < |box.rows| ==>
      box.rows[i] == Row(ColorFor(version, Some(Grades(version)[i] + 1.0)), Labels(version)[i])
  {
    var rows := LegendRows(version, Grades(version), Labels(version));
    box := Box(Title(variable), rows);
  }

  // ---------------------------------------------------------------------
  // What the legend shows

  /** The band just above a grade: band i + 1, or the top band for the
      last current grade. */
  function BandAbove(version: Version, i: nat): nat {
    if i + 1 < |Palette(version)| then i + 1 else i
  }

  lemma GradeInBandAboveCurrent(i: nat)
    requires i < |Grades(Current)|
    ensures InBand(Thresholds(Current), BandAbove(Current, i), Grades(Current)[i] + 1.0)
  {
    var ts, v := Thresholds(Current), Grades(Current)[i] + 1.0;
    assert v == (100 * (i + 1)) as real + 1.0;
    if i < 19 {
      assert ts[i] == (100 * (i + 1)) as real;
      if i < 18 { assert ts[i + 1] == (100 * (i + 2)) as real; }
    } else {
      assert ts[18] == 1900.0;
    }
  }

  lemma GradeInBandAboveLegacy(i: nat)
    requires i < |Grades(Legacy)|
    ensures InBand(Thresholds(Legacy), BandAbove(Legacy, i), Grades(Legacy)[i] + 1.0)
  {
    var ts := Thresholds(Legacy);
    assert ts == [800.0, 900.0, 1000.0, 1100.0, 1200.0];
  }

  /** Row i carries the colour of band i + 1 (the band just above
      `grades[i]`); the last current row, above 2000, repeats the top band. */
  lemma SwatchIsBandAbove(version: Version, i: nat)
    requires i < |Grades(version)|
    ensures ColorFor(version, Some(Grades(version)[i] + 1.0)) == Palette(version)[BandAbove(version, i)]
  {
    var v := Grades(version)[i] + 1.0;
    if version == Current { GradeInBandAboveCurrent(i); } else { GradeInBandAboveLegacy(i); }
    BandIsUnique(version, v, BandAbove(version, i));
    ColorForIsBandColor(version, Some(v));
  }

  /** The current legend has 20 rows and the legacy one 5: the legacy label
      "> 1200" is never shown. */
  lemma RowCounts()
    ensures |Grades(Current)| == 20 && |Grades(Legacy)| == 5
    ensures forall i :: 0 <= i < 5 ==> Labels(Legacy)[i] != "> 1200"
  {
  }

  /** As written, row i puts the colour of band i + 1 beside the label of
      band i, for every row below the top band. */
  lemma SwatchMismatchesLabel(version: Version, i: nat)
    requires i < |Grades(version)| && i + 1 < |Palette(version)|
    ensures ColorFor(version, Some(Grades(version)[i] + 1.0)) != Palette(version)[i]
  {
    SwatchIsBandAbove(version, i);
    PaletteDistinct(version, i, i + 1);
  }

  /** As written, the colour of the lowest band (the one a region with no
      value gets) appears in no row: the "<100" row of the current legend
      shows the 100-200 colour. */
  lemma LowestColorNotInLegend(version: Version, i: nat)
    requires i < |Grades(version)|
    ensures ColorFor(version, Some(Grades(version)[i] + 1.0)) != Palette(version)[0]
  {
    SwatchIsBandAbove(version, i);
    PaletteDistinct(version, 0, BandAbove(version, i));
  }

  // ---------------------------------------------------------------------
  // The legend as intended: each label beside the colour of its own band

  /** A value inside band i: its upper boundary for a bounded band, one
      above the top boundary for the top band. */
  function BandSample(version: Version, i: nat): (v: real)
    requires i < |Palette(version)|
    ensures InBand(Thresholds(version), i, v)
  {
    var ts := Thresholds(version);
    if i < |ts| then ts[i] else ts[|ts| - 1] + 1.0
  }

  /** The row for band i: a sample of the band's colour beside its label. */
  function BandRow(version: Version, i: nat): Row
    requires i < |Labels(version)|
  {
    Row(ColorFor(version, Some(BandSample(version, i))), Labels(version)[i])
  }

  /** One row per band, each swatch the `getColor` of a value in the band
      that the row's label names. */
  method BuildLegendCorrected(version: Version, variable: string) returns (box: Box)
    ensures box.title == Title(variable)
    ensures |box.rows| == |Labels(version)|
    ensures forall i :: 0 <= i < |box.rows| ==> box.rows[i].text == Labels(version)[i]
    ensures forall i, v :: 0 <= i < |box.rows| && InBand(Thresholds(version), i, v) ==>
      ColorFor(version, Some(v)) == box.rows[i].swatch
  {
    var rows: seq<Row> := [];
    for i := 0 to |Labels(version)|
      invariant |rows| == i
      invariant forall k :: 0 <= k < i ==> rows[k] == BandRow(version, k)
    {
      rows := rows + [BandRow(version, i)];
    }
    box := Box(Title(variable), rows);
    forall i, v | 0 <= i < |rows| && InBand(Thresholds(version), i, v)
      ensures ColorFor(version, Some(v)) == rows[i].swatch
    {
      var s := BandSample(version, i);
      BandIsUnique(version, v, i);
      BandIsUnique(version, s, i);
      SameColorIffSameBand(version, v, s);
    }
  }
}
