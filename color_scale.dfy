/** The choropleth colour scale: `getColor` of the current script (20 bands
    of 100 mm) and of the legacy script (6 bands between 800 and 1200 mm).
    Each is written as the source's chain of strict `>` tests and proved
    equal to an independent reference: the band of a value is the number
    of band boundaries strictly below it, and its colour is that entry of
    the palette. */
module ColorScale {

  import opened Js

  /** The two versions of the client script that carry their own tables. */
  datatype Version = Current | Legacy

  /** `value > bound` in JavaScript, where a value that is not a number
      (None, NaN) compares false with everything. */
  predicate Above(value: Option<real>, bound: real) {
    value.Some? && value.value > bound
  }

  /** `getColor` of the current script, NaN being None. */
  function GetColor(value: Option<real>): string {
    if Above(value, 1900.0) then "#3B0066"
    else if Above(value, 1800.0) then "#4A008A"
    else if Above(value, 1700.0) then "#5A1DD8"
    else if Above(value, 1600.0) then "#6333F7"
    else if Above(value, 1500.0) then "#3E5CFA"
    else if Above(value, 1400.0) then "#3580F7"
    else if Above(value, 1300.0) then "#2FA4F4"
    else if Above(value, 1200.0) then "#2AC6E7"
    else if Above(value, 1100.0) then "#36D3D0"
    else if Above(value, 1000.0) then "#42E0B5"
    else if Above(value, 900.0) then "#5FEB9C"
    else if Above(value, 800.0) then "#7AF085"
    else if Above(value, 700.0) then "#96E86E"
    else if Above(value, 600.0) then "#B2DC58"
    else if Above(value, 500.0) then "#E0BE3C"
    else if Above(value, 400.0) then "#E89730"
    else if Above(value, 300.0) then "#E06928"
    else if Above(value, 200.0) then "#D53C20"
    else if Above(value, 100.0) then "#BB1818"
    else "#990808"
  }

  /** `getColor` of the legacy script, NaN being None. */
  function LegacyGetColor(value: Option<real>): string {
    if Above(value, 1200.0) then "#08306b"
    else if Above(value, 1100.0) then "#2879b9"
    else if Above(value, 1000.0) then "#67a9cf"
    else if Above(value, 900.0) then "#a6d6eb"
    else if Above(value, 800.0) then "#ffffb2"
    else "#fed976"
  }

  function ColorFor(version: Version, value: Option<real>): string {
    match version
    case Current => GetColor(value)
    case Legacy => LegacyGetColor(value)
  }


  // ---------------------------------------------------------------------
  // Reference definition: boundaries and palette

  /** Band boundaries in ascending order: 100, 200, ..., 1900 for the
      current scale and 800, 900, ..., 1200 for the legacy one. */
  function Thresholds(version: Version): (ts: seq<real>)
    ensures StrictlyIncreasing(ts)
  {
    match version
    case Current => seq(19, i => (100 * (i + 1)) as real)
    case Legacy => seq(5, i => (800 + 100 * i) as real)
  }

  /** Colours of the bands, the lowest band first. */
  function Palette(version: Version): (p: seq<string>)
    ensures |p| == |Thresholds(version)| + 1
  {
    match version
    case Current =>
      ["#990808", "#BB1818", "#D53C20", "#E06928", "#E89730",
       "#E0BE3C", "#B2DC58", "#96E86E", "#7AF085", "#5FEB9C",
       "#42E0B5", "#36D3D0", "#2AC6E7", "#2FA4F4", "#3580F7",
       "#3E5CFA", "#6333F7", "#5A1DD8", "#4A008A", "#3B0066"]
    case Legacy =>
      ["#fed976", "#ffffb2", "#a6d6eb", "#67a9cf", "#2879b9", "#08306b"]
  }

  ghost predicate StrictlyIncreasing(ts: seq<real>) {
    forall i, j :: 0 <= i < j < |ts| ==> ts[i] < ts[j]
  }

  /** How many of the boundaries lie strictly below `v`. */
  function CountBelow(ts: seq<real>, v: real): (n: nat)
    ensures n <= |ts|
  {
    if ts == [] then 0 else (if ts[0] < v then 1 else 0) + CountBelow(ts[1..], v)
  }

  /** Band k of boundaries ts is the half-open interval (ts[k-1], ts[k]],
      unbounded below for the first band and above for the last. */
  ghost predicate InBand(ts: seq<real>, k: nat, v: real) {
    k <= |ts| && (k == 0 || ts[k - 1] < v) && (k == |ts| || v <= ts[k])
  }

  function Band(version: Version, v: real): nat {
    CountBelow(Thresholds(version), v)
  }

  /** The band `getColor` picks: NaN goes with the lowest band. */
  function BandOf(version: Version, value: Option<real>): nat {
    match value
    case None => 0
    case Some(v) => Band(version, v)
  }

  /** On ascending boundaries the count below `v` is the band holding `v`. */
  lemma {:induction false} CountBelowIsBand(ts: seq<real>, v: real)
    requires StrictlyIncreasing(ts)
    ensures InBand(ts, CountBelow(ts, v), v)
  {
    if ts != [] {
      var tail := ts[1..];
      assert StrictlyIncreasing(tail) by {
        forall i, j | 0 <= i < j < |tail| ensures tail[i] < tail[j] {
          assert tail[i] == ts[i + 1] && tail[j] == ts[j + 1];
        }
      }
      CountBelowIsBand(tail, v);
      var m := CountBelow(tail, v);
      if ts[0] < v {
        assert CountBelow(ts, v) == m + 1;
        if m < |tail| { assert ts[m + 1] == tail[m]; }
        if m > 0 { assert ts[m] == tail[m - 1]; }
      } else {
        // every boundary is at least ts[0] >= v, so none of the tail is below v
        assert CountBelow(ts, v) == m == 0;
      }
    }
  }

  lemma BandOfIsBand(version: Version, value: Option<real>)
    ensures value.Some? ==> InBand(Thresholds(version), BandOf(version, value), value.value)
  {
    if value.Some? {
      CountBelowIsBand(Thresholds(version), value.value);
    }
  }

  /** The bands are disjoint: a value lies in no more than one band. */
  lemma BandsDisjoint(ts: seq<real>, j: nat, k: nat, v: real)
    requires StrictlyIncreasing(ts)
    requires InBand(ts, j, v) && InBand(ts, k, v)
    ensures j == k
  {
  }

  /** Every value lies in exactly one band, and `Band` names it. */
  lemma BandIsUnique(version: Version, v: real, k: nat)
    ensures InBand(Thresholds(version), Band(version, v), v)
    ensures InBand(Thresholds(version), k, v) <==> k == Band(version, v)
  {
    CountBelowIsBand(Thresholds(version), v);
    if InBand(Thresholds(version), k, v) {
      BandsDisjoint(Thresholds(version), k, Band(version, v), v);
    }
  }

  /** A larger value never falls in a lower band. */
  lemma BandMonotone(version: Version, u: real, v: real)
    requires u <= v
    ensures Band(version, u) <= Band(version, v)
  {
    var ts := Thresholds(version);
    CountBelowIsBand(ts, u);
    CountBelowIsBand(ts, v);
  }

  // ---------------------------------------------------------------------
  // The source tables agree with the reference

  /** `getColor` of the current script is the palette colour of the value's
      band; NaN fails every test and gets the lowest band's colour. */
  lemma GetColorIsBandColor(value: Option<real>)
    ensures GetColor(value) == Palette(Current)[BandOf(Current, value)]
  {
    BandOfIsBand(Current, value);
  }

  /** `getColor` of the legacy script is the palette colour of the value's
      band; NaN gets the lowest band's colour. */
  lemma LegacyGetColorIsBandColor(value: Option<real>)
    ensures LegacyGetColor(value) == Palette(Legacy)[BandOf(Legacy, value)]
  {
    BandOfIsBand(Legacy, value);
  }

  /** Either version's `getColor` is the palette colour of the band. */
  lemma ColorForIsBandColor(version: Version, value: Option<real>)
    ensures ColorFor(version, value) == Palette(version)[BandOf(version, value)]
  {
    match version
    case Current => GetColorIsBandColor(value);
    case Legacy => LegacyGetColorIsBandColor(value);
  }

  /** The palette of either version holds pairwise distinct colours. */
  lemma PaletteDistinct(version: Version, i: nat, j: nat)
    requires i < j < |Palette(version)|
    ensures Palette(version)[i] != Palette(version)[j]
  {
  }

  /** Two values get the same colour exactly when they lie in the same band;
      a value on a boundary goes with the band below it. */
  lemma SameColorIffSameBand(version: Version, u: real, v: real)
    ensures ColorFor(version, Some(u)) == ColorFor(version, Some(v)) <==> Band(version, u) == Band(version, v)
  {
    ColorForIsBandColor(version, Some(u));
    ColorForIsBandColor(version, Some(v));
    var a, b := Band(version, u), Band(version, v);
    CountBelowIsBand(Thresholds(version), u);
    CountBelowIsBand(Thresholds(version), v);
    if a < b { PaletteDistinct(version, a, b); }
    if b < a { PaletteDistinct(version, b, a); }
  }

  /** The inner bands of the current scale: band k, for k in 1..18,
      covers (100k, 100(k+1)]. */
  lemma GetColorBands(v: real, k: nat)
    requires 1 <= k <= 18 && (100 * k) as real < v <= (100 * (k + 1)) as real
    ensures GetColor(Some(v)) == Palette(Current)[k]
  {
    BandIsUnique(Current, v, k);
    GetColorIsBandColor(Some(v));
  }

  /** Both ends of the current scale. */
  lemma GetColorEnds(v: real)
    ensures v <= 100.0 ==> GetColor(Some(v)) == "#990808"
    ensures v > 1900.0 ==> GetColor(Some(v)) == "#3B0066"
  {
    GetColorIsBandColor(Some(v));
    if v <= 100.0 { BandIsUnique(Current, v, 0); }
    if v > 1900.0 { BandIsUnique(Current, v, 19); }
  }

  /** Both ends of the legacy scale and its four inner bands. */
  lemma LegacyGetColorBands(v: real)
    ensures v <= 800.0 ==> LegacyGetColor(Some(v)) == "#fed976"
    ensures 800.0 < v <= 900.0 ==> LegacyGetColor(Some(v)) == "#ffffb2"
    ensures 900.0 < v <= 1000.0 ==> LegacyGetColor(Some(v)) == "#a6d6eb"
    ensures 1000.0 < v <= 1100.0 ==> LegacyGetColor(Some(v)) == "#67a9cf"
    ensures 1100.0 < v <= 1200.0 ==> LegacyGetColor(Some(v)) == "#2879b9"
    ensures v > 1200.0 ==> LegacyGetColor(Some(v)) == "#08306b"
  {
  }
}
