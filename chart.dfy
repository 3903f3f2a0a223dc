/** The time-series chart panel and the selection that drives it: the
    global `chart` handle, the visibility of the chart container (with its
    close button), the canvas, and, in the current script, the global
    `selectedSubcatchment`. The legacy script keeps no selection and
    recovers the SC_ID from the text of the open popup instead. */
module Chart {
  import opened Js
  import opened ColorScale
  import opened Csv

  /** What a Chart.js instance is built from: the title, the y-axis label
      and the parsed series. */
  datatype ChartConfig<F> = ChartConfig(title: string, yAxis: string, data: Series<F>)

  /** The chart title; an empty SC_ID reads "Unknown". */
  function ChartTitle(version: Version, scenario: string, scId: string): string {
    var id := if scId != "" then scId else "Unknown";
    match version
    case Current => "Escenario: " + UpperAscii(scenario) + "  -  Subcuenca: " + id
    case Legacy => "Subcatchment: " + id
  }

  /** The `if (sc_id)` test on a feature's `SC_ID` (None when absent). */
  predicate IdTruthy(scId: Option<string>) {
    scId.Some? && Truthy(Str(scId.value))
  }

  /** The effects of a selector change besides the map refresh with the
      selected year: the SC_ID whose series is fetched again, if any. */
  datatype Effects = Effects(colorsFor: Value, reload: Option<string>)

  class ChartPanel<F> {
    const version: Version
    /** Every chart instance created so far, oldest first. */
    var charts: seq<ChartConfig<F>>
    /** The instances whose `destroy()` has run (indices into charts). */
    var destroyed: set<nat>
    /** The global `chart`: the last instance created, if any. */
    var handle: Option<nat>
    /** How many canvases with id `timeSeriesChart` the container holds. */
    var canvases: nat
    /** The chart container and its close button are displayed. */
    var visible: bool
    /** `selectedSubcatchment` (never written by the legacy script). */
    var selected: Option<string>
    /** The text content of the open popup, if one is open. */
    var popup: Option<string>

    /** Every instance except the one the handle names is destroyed, and the
        container holds at most one canvas. */
    ghost predicate Valid()
      reads this
    {
      && (handle.Some? ==> handle.value < |charts|)
      && (forall i :: i in destroyed ==> i < |charts|)
      && (forall i :: 0 <= i < |charts| && i !in destroyed ==> handle == Some(i))
      && canvases <= 1
    }

    /** The instances that are still alive. */
    ghost function Live(): set<nat>
      reads this
    {
      set i | 0 <= i < |charts| && i !in destroyed
    }

    /** At most one live chart: the one the handle names. */
    lemma AtMostOneLive()
      requires Valid()
      ensures handle.None? ==> Live() == {}
      ensures handle.Some? ==> Live() <= {handle.value}
      ensures |Live()| <= 1
    {
      if handle.Some? {
        assert Live() <= {handle.value};
        SubsetSingletonSize(Live(), handle.value);
      } else {
        assert forall i :: i in Live() ==> false;
      }
    }

    /** The page as loaded: no chart, no canvas, the container hidden and
        nothing selected. */
    constructor (version: Version)
      ensures Valid() && this.version == version
      ensures charts == [] && destroyed == {} && handle == None
      ensures canvases == 0 && !visible && selected == None && popup == None
    {
      this.version := version;
      charts := [];
      destroyed := {};
      handle := None;
      canvases := 0;
      visible := false;
      selected := None;
      popup := None;
    }

    /** `showChart`: displays the container and the close button. */
    method ShowChart()
      requires Valid()
      modifies this
      ensures Valid() && visible
      ensures charts == old(charts) && destroyed == old(destroyed) && handle == old(handle)
      ensures canvases == old(canvases) && selected == old(selected) && popup == old(popup)
      ensures Live() == old(Live())
    {
      visible := true;
    }

    /** `closeChart`: hides the container and destroys the chart; the handle
        keeps naming the destroyed instance. */
    method CloseChart()
      requires Valid()
      modifies this
      ensures Valid() && !visible
      ensures charts == old(charts) && handle == old(handle)
      ensures destroyed == if old(handle).Some? then old(destroyed) + {old(handle).value} else old(destroyed)
      ensures canvases == old(canvases) && selected == old(selected) && popup == old(popup)
      ensures Live() == {}
    {
      visible := false;
      if handle.Some? {
        destroyed := destroyed + {handle.value};
      }
      AtMostOneLive();
    }

    /** `renderChart`: replaces the canvas, destroys the previous chart and
        builds a new one, which the handle then names. */
    method RenderChart(data: Series<F>, scId: string, scenario: string, variable: string)
      requires Valid()
      modifies this
      ensures Valid()
      ensures charts == old(charts) + [ChartConfig(ChartTitle(version, scenario, scId), UpperAscii(variable) + " (mm)", data)]
      ensures handle == Some(|old(charts)|)
      ensures destroyed == if old(handle).Some? then old(destroyed) + {old(handle).value} else old(destroyed)
      ensures canvases == 1 && visible == old(visible) && selected == old(selected) && popup == old(popup)
      ensures Live() == {|old(charts)|}
    {
      if canvases > 0 {
        canvases := canvases - 1;
      }
      canvases := canvases + 1;
      if handle.Some? {
        destroyed := destroyed + {handle.value};
      }
      var config := ChartConfig(ChartTitle(version, scenario, scId), UpperAscii(variable) + " (mm)", data);
      charts := charts + [config];
      handle := Some(|charts| - 1);
      assert |charts| - 1 !in destroyed;
    }

    /** `loadTimeSeriesData` once the response has arrived. `response` is
        None for a failed request or a response that is not ok. With no
        kept record nothing is rendered and the previous chart is left as
        it was. */
    method LoadTimeSeries(response: Option<string>, scId: string, scenario: string, variable: string,
                          parseFloat: string -> F)
      returns (rendered: bool)
      requires Valid()
      modifies this
      ensures Valid()
      ensures rendered <==> response.Some? && |Records(Rows(response.value))| > 0
      ensures !rendered ==>
        charts == old(charts) && destroyed == old(destroyed) && handle == old(handle) && canvases == old(canvases)
      ensures rendered ==>
        && |charts| == |old(charts)| + 1 && charts[..|old(charts)|] == old(charts)
        && handle == Some(|old(charts)|) && Live() == {|old(charts)|}
        && destroyed == (if old(handle).Some? then old(destroyed) + {old(handle).value} else old(destroyed))
        && canvases == 1
        && charts[|old(charts)|].title == ChartTitle(version, scenario, scId)
        && charts[|old(charts)|].yAxis == UpperAscii(variable) + " (mm)"
        && IsParseOf(charts[|old(charts)|].data, response.value, parseFloat)
      ensures visible == old(visible) && selected == old(selected) && popup == old(popup)
    {
      if response == None {
        return false;
      }
      var data := ParseCsv(response.value, parseFloat);
      if |data.dates| == 0 {
        return false;
      }
      RenderChart(data, scId, scenario, variable);
      assert charts[..|old(charts)|] == old(charts);
      rendered := true;
    }

    /** The click handler of a region layer. The current script stores the
        SC_ID first, whatever it is; both scripts then, for a truthy SC_ID,
        start loading its series (`load`), open the region's popup and show
        the chart. */
    method Click(scId: Option<string>) returns (load: Option<string>)
      requires Valid()
      modifies this
      ensures Valid()
      ensures charts == old(charts) && destroyed == old(destroyed) && handle == old(handle)
      ensures canvases == old(canvases)
      ensures selected == if version == Current then scId else old(selected)
      ensures load == (if IdTruthy(scId) then scId else None)
      ensures visible == (IdTruthy(scId) || old(visible))
      ensures popup == if IdTruthy(scId) then Some(PopupText(version, scId.value)) else old(popup)
    {
      if version == Current {
        selected := scId;
      }
      if IdTruthy(scId) {
        load := scId;
        popup := Some(PopupText(version, scId.value));
        ShowChart();
      } else {
        load := None;
      }
    }

    /** The user closes the popup. */
    method ClosePopup()
      requires Valid()
      modifies this`popup
      ensures Valid() && popup == None
    {
      popup := None;
    }

    /** `updateVisualization` of the current script: refresh the map with
        the selected year, and fetch the series again when the stored
        SC_ID is truthy. */
    function UpdateVisualization(year: Value): (e: Effects)
      reads this
      ensures e.colorsFor == year
      ensures e.reload.Some? <==> IdTruthy(selected)
      ensures e.reload.Some? ==> e.reload == selected
    {
      Effects(year, if IdTruthy(selected) then selected else None)
    }
  }

  lemma SubsetSingletonSize(s: set<nat>, x: nat)
    requires s <= {x}
    ensures |s| <= 1
  {
    if s != {} {
      assert s == {x};
    }
  }

  // ---------------------------------------------------------------------
  // The legacy script: the SC_ID comes from the popup text

  predicate IsDigit(c: char) {
    '0' <= c <= '9'
  }

  /** The first digit at or after `from`. */
  function FirstDigitFrom(t: string, from: nat): (p: Option<nat>)
    requires from <= |t|
    ensures p.Some? ==> from <= p.value < |t| && IsDigit(t[p.value])
    ensures p.Some? ==> forall j :: from <= j < p.value ==> !IsDigit(t[j])
    ensures p.None? ==> forall j :: from <= j < |t| ==> !IsDigit(t[j])
    decreases |t| - from
  {
    if from == |t| then None
    else if IsDigit(t[from]) then Some(from)
    else FirstDigitFrom(t, from + 1)
  }

  /** The end of the run of digits starting at `p`. */
  function DigitRunEnd(t: string, p: nat): (e: nat)
    requires p <= |t|
    ensures p <= e <= |t|
    ensures forall j :: p <= j < e ==> IsDigit(t[j])
    ensures e == |t| || !IsDigit(t[e])
    decreases |t| - p
  {
    if p < |t| && IsDigit(t[p]) then DigitRunEnd(t, p + 1) else p
  }

  /** `r` is the run of digits at `p` in `t`: it is non-empty, all digits,
      no digit comes before it and it is not followed by a digit. */
  ghost predicate IsFirstDigitRun(t: string, p: nat, r: string) {
    && p + |r| <= |t| && t[p..p + |r|] == r
    && |r| > 0
    && (forall j :: 0 <= j < |r| ==> IsDigit(r[j]))
    && (forall j :: 0 <= j < p ==> !IsDigit(t[j]))
    && (p + |r| == |t| || !IsDigit(t[p + |r|]))
  }

  /** `t.match(/\d+/)[0]`: the leftmost maximal run of digits, None when `t`
      has no digit (where `match` yields null). */
  function FirstDigitRun(t: string): (r: Option<string>)
    ensures r.None? <==> forall j :: 0 <= j < |t| ==> !IsDigit(t[j])
    ensures r.Some? ==> exists p :: IsFirstDigitRun(t, p, r.value)
  {
    match FirstDigitFrom(t, 0)
    case None => None
    case Some(p) =>
      var e := DigitRunEnd(t, p);
      assert IsFirstDigitRun(t, p, t[p..e]);
      Some(t[p..e])
  }

  /** The text content of the popup bound to a clicked region. */
  function PopupText(version: Version, scId: string): string {
    match version
    case Current => "Subcuenca: " + scId + " "
    case Legacy => LegacyPopupText(scId)
  }

  function LegacyPopupText(scId: string): string {
    "Subcatchment ID: " + scId + " "
  }

  /** What the legacy `updateVisualization` does after refreshing the map:
      with no popup open, nothing more; with a popup holding a digit, it
      fetches the series of the first run of digits and redraws the legend;
      with a popup holding no digit, `match` yields null, indexing it
      throws, and the legend is not redrawn. */
  datatype LegacyEffects = LegacyEffects(colorsFor: Value, reload: Option<string>, legendRedrawn: bool)

  function LegacyUpdateVisualization(year: Value, popup: Option<string>): (e: LegacyEffects)
    ensures e.colorsFor == year
    ensures popup.None? ==> e.reload == None && e.legendRedrawn
    ensures popup.Some? ==> e.reload == FirstDigitRun(popup.value) && (e.legendRedrawn <==> e.reload.Some?)
  {
    match popup
    case None => LegacyEffects(year, None, true)
    case Some(text) =>
      match FirstDigitRun(text)
      case None => LegacyEffects(year, None, false)
      case Some(id) => LegacyEffects(year, Some(id), true)
  }

  /** Skipping a stretch without digits does not change the first digit. */
  lemma {:induction false} FirstDigitSkip(t: string, from: nat, k: nat)
    requires from <= k <= |t|
    requires forall j :: from <= j < k ==> !IsDigit(t[j])
    ensures FirstDigitFrom(t, from) == FirstDigitFrom(t, k)
    decreases k - from
  {
    if from < k {
      FirstDigitSkip(t, from + 1, k);
    }
  }

  /** A run of digits ending the text or followed by a non-digit ends there. */
  lemma {:induction false} DigitRunEndAt(t: string, p: nat, e: nat)
    requires p <= e <= |t|
    requires forall j :: p <= j < e ==> IsDigit(t[j])
    requires e == |t| || !IsDigit(t[e])
    ensures DigitRunEnd(t, p) == e
    decreases e - p
  {
    if p < e {
      DigitRunEndAt(t, p + 1, e);
    }
  }

  /** The legacy popup gives back an SC_ID made of digits only. */
  lemma LegacyPopupRoundTrip(scId: string)
    requires scId != [] && forall j :: 0 <= j < |scId| ==> IsDigit(scId[j])
    ensures FirstDigitRun(LegacyPopupText(scId)) == Some(scId)
  {
    var t := LegacyPopupText(scId);
    var n := |"Subcatchment ID: "|;
    assert forall j :: 0 <= j < n ==> !IsDigit(t[j]);
    FirstDigitSkip(t, 0, n);
    assert IsDigit(t[n]) by { assert t[n] == scId[0]; }
    assert forall j :: n <= j < n + |scId| ==> IsDigit(t[j]) by {
      forall j | n <= j < n + |scId| ensures IsDigit(t[j]) { assert t[j] == scId[j - n]; }
    }
    assert t[n + |scId|] == ' ';
    DigitRunEndAt(t, n, n + |scId|);
    assert t[n..n + |scId|] == scId;
  }

  /** A popup without a digit makes the legacy handler throw before the
      legend is redrawn. */
  lemma LegacyPopupWithoutDigit(scId: string)
    requires forall j :: 0 <= j < |scId| ==> !IsDigit(scId[j])
    ensures LegacyUpdateVisualization(Null, Some(LegacyPopupText(scId))).legendRedrawn == false
  {
    var t := LegacyPopupText(scId);
    var n := |"Subcatchment ID: "|;
    forall j | 0 <= j < |t| ensures !IsDigit(t[j]) {
      if n <= j < n + |scId| { assert t[j] == scId[j - n]; }
    }
  }
}
