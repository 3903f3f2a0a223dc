/** The restyle pass of `updateColors`, the same in both scripts apart from
    the colour scale: abort when the payload carries a truthy `error`,
    otherwise give every region layer the colour of `mapData[id] || 0`. */
module MapColors {
  import opened Js
  import opened ColorScale

  /** A region layer: its SC_ID and its current fill colour. */
  datatype Region = Region(scId: string, fillColor: string)

  /** The decoded `/mapdata` payload, a JSON object. */
  type Payload = map<string, Value>

  /** `mapData.error` is truthy. */
  predicate HasError(data: Payload) {
    "error" in data && Truthy(data["error"])
  }

  /** `mapData[id] || 0`: a truthy entry as it is, otherwise 0. */
  function ValueFor(data: Payload, id: string): (v: Value)
    ensures Truthy(v) || v == Num(0.0)
    ensures id in data && Truthy(data[id]) ==> v == data[id]
    ensures id in data && !Truthy(data[id]) ==> v == Num(0.0)
    ensures id !in data ==> v == Num(0.0)
  {
    Or(if id in data then data[id] else Undefined, Num(0.0))
  }

  /** `getColor(value)` for a JavaScript value: compared as a number, and
      as NaN (every `>` false) when it does not convert. */
  function ColorOfValue(version: Version, v: Value): (c: string) {
    ColorFor(version, ToNumber(v))
  }

  function Restyle(version: Version, r: Region, data: Payload): Region {
    r.(fillColor := ColorOfValue(version, ValueFor(data, r.scId)))
  }

  /** The layers after one successful pass. */
  function Restyled(version: Version, rs: seq<Region>, data: Payload): (out: seq<Region>)
    ensures |out| == |rs|
  {
    seq(|rs|, i requires 0 <= i < |rs| => Restyle(version, rs[i], data))
  }

  /** `updateColors` once the response has arrived. `response` is None when
      the fetch or the JSON decoding failed (the error is caught and
      logged). `restyled` says whether the `eachLayer` pass ran. */
  method UpdateColors(version: Version, layers: array<Region>, response: Option<Payload>) returns (restyled: bool)
    modifies layers
    ensures restyled <==> response.Some? && !HasError(response.value)
    ensures !restyled ==> layers[..] == old(layers[..])
    ensures restyled ==> layers[..] == Restyled(version, old(layers[..]), response.value)
  {
    if response == None {
      return false;
    }
    var mapData := response.value;
    if "error" in mapData && Truthy(mapData["error"]) {
      return false;
    }
    var i := 0;
    while i < layers.Length
      invariant 0 <= i <= layers.Length
      invariant forall k :: 0 <= k < i ==> layers[k] == Restyle(version, old(layers[k]), mapData)
      invariant forall k :: i <= k < layers.Length ==> layers[k] == old(layers[k])
    {
      // restyle this layer from its own payload entry
      var layer := layers[i];
      assert layer == old(layers[i]);
      layers[i] := Restyle(version, layer, mapData);
      i := i + 1;
    }
    restyled := true;
  }

  // ---------------------------------------------------------------------
  // Properties of a pass

  /** A pass keeps every region's SC_ID and sets its colour from the
      payload entry for that SC_ID alone. */
  lemma RestyledColors(version: Version, rs: seq<Region>, data: Payload, i: nat)
    requires i < |rs|
    ensures Restyled(version, rs, data)[i].scId == rs[i].scId
    ensures Restyled(version, rs, data)[i].fillColor
         == ColorOfValue(version, ValueFor(data, rs[i].scId))
  {
  }

  /** The outcome depends only on the SC_IDs, not on the colours before:
      two layer lists with the same SC_IDs end up identical. */
  lemma RestyledForgetsOldColors(version: Version, rs: seq<Region>, ss: seq<Region>, data: Payload)
    requires |rs| == |ss|
    requires forall i :: 0 <= i < |rs| ==> rs[i].scId == ss[i].scId
    ensures Restyled(version, rs, data) == Restyled(version, ss, data)
  {
  }

  /** Applying the same payload twice gives the styles of applying it once. */
  lemma RestyledIdempotent(version: Version, rs: seq<Region>, data: Payload)
    ensures Restyled(version, Restyled(version, rs, data), data) == Restyled(version, rs, data)
  {
    RestyledForgetsOldColors(version, Restyled(version, rs, data), rs, data);
  }

  /** A value that converts to a number gets its band's colour; one that
      does not (NaN) gets the lowest band's colour. */
  lemma ColorOfValueIsBandColor(version: Version, v: Value)
    ensures ToNumber(v).Some? ==> ColorOfValue(version, v) == Palette(version)[Band(version, ToNumber(v).value)]
    ensures ToNumber(v).None? ==> ColorOfValue(version, v) == Palette(version)[0]
  {
    ColorForIsBandColor(version, ToNumber(v));
  }

  /** A region missing from the payload, or whose entry is falsy, gets the
      colour of 0: the lowest band. */
  lemma MissingValueGetsLowestColor(version: Version, data: Payload, id: string)
    requires id !in data || !Truthy(data[id])
    ensures ColorOfValue(version, ValueFor(data, id)) == Palette(version)[0]
  {
    ColorForIsBandColor(version, Some(0.0));
    CountBelowIsBand(Thresholds(version), 0.0);
  }

  /** Regions A and B, payload {"A": 950}: A takes the 900-1000 colour and
      B, absent, the colour of 0. */
  lemma ExampleTwoRegions(a0: string, b0: string)
    ensures Restyled(Current, [Region("A", a0), Region("B", b0)], map["A" := Num(950.0)])
         == [Region("A", "#5FEB9C"), Region("B", "#990808")]
  {
    var data := map["A" := Num(950.0)];
    assert "B" != "A";
    assert ValueFor(data, "B") == Num(0.0);
  }
}
