/**
 * What the report charts draw, as ordered layer records: the radar polygon of the four
 * indicator scores (closed back onto its first point) with one marker per axis, the PRE/POST
 * comparison radar, and the single and comparison score bars. Geometry, fonts and image
 * files are not modelled; the order of the layers is the drawing order.
 */
module Charts {
  import opened Wrappers
  import opened Framework

  const PURPLE := "#461E96"
  const CYAN := "#00B4E6"
  const MAGENTA := "#E6008C"
  const GREEN := "#00DC8C"
  /** The grey of the PRE polygon and markers. */
  const PRE_GREY := "#999999"
  /** The background track of a score bar. */
  const TRACK_GREY := "#E8E8E8"
  /** The dashed outline of a PRE bar. */
  const OUTLINE_GREY := "#888888"

  /** The radar axes run over the indicators in table order; the score axis runs 0 to 6. */
  const AXES := |INDICATORS|
  const SCALE_MAX := 6.0

  /** The marker colours, one per axis, as the chart code lists them. */
  const MARKER_COLOURS: seq<string> := [PURPLE, CYAN, MAGENTA, GREEN]

  datatype Stroke = Solid | Dashed

  datatype Layer =
    | Fill(values: seq<real>, colour: string)
    | Outline(values: seq<real>, colour: string, width: int, stroke: Stroke)
    | Marker(axis: int, value: real, colour: string, size: int, zorder: int)
    | Bar(length: real, face: Option<string>, edge: Option<string>, stroke: Stroke)

  /** A bar chart: its layers and the right end of its x axis. */
  datatype BarChart = BarChart(layers: seq<Layer>, xmax: real)

  /** `[scores.get(ind, 0) for ind in INDICATORS]`: one value per axis, 0 for a missing indicator. */
  function RadarValues(scores: map<Indicator, real>): (r: seq<real>)
    ensures |r| == AXES
    ensures forall k :: 0 <= k < AXES ==>
      r[k] == (if INDICATORS[k].indicator in scores then scores[INDICATORS[k].indicator] else 0.0)
  {
    seq(AXES, k requires 0 <= k < AXES =>
      if INDICATORS[k].indicator in scores then scores[INDICATORS[k].indicator] else 0.0)
  }

  /** `values + [values[0]]`: the polygon returns to its first point. */
  function Closed(values: seq<real>): (r: seq<real>)
    requires |values| > 0
    ensures |r| == |values| + 1
    ensures r[..|values|] == values
    ensures r[|values|] == r[0] == values[0]
  {
    values + [values[0]]
  }

  /** The hard-coded marker colours are the indicators' own colours, axis by axis. */
  lemma MarkerColoursAreIndicatorColours()
    ensures |MARKER_COLOURS| == AXES
    ensures forall k :: 0 <= k < AXES ==> MARKER_COLOURS[k] == IndicatorColour(INDICATORS[k].indicator)
  {
  }

  /** The layers of the radar of `scores`, as one value. */
  function RadarLayers(scores: map<Indicator, real>): seq<Layer>
  {
    var closed := Closed(RadarValues(scores));
    [Fill(closed, PURPLE), Outline(closed, PURPLE, 3, Solid)] +
    seq(AXES, k requires 0 <= k < AXES => Marker(k, RadarValues(scores)[k], MARKER_COLOURS[k], 150, 5))
  }

  /** The layers of the PRE/POST comparison radar, as one value. */
  function ComparisonRadarLayers(pre: map<Indicator, real>, post: map<Indicator, real>): seq<Layer>
  {
    var preClosed := Closed(RadarValues(pre));
    var postClosed := Closed(RadarValues(post));
    [Fill(preClosed, PRE_GREY), Outline(preClosed, PRE_GREY, 2, Dashed),
     Fill(postClosed, GREEN), Outline(postClosed, GREEN, 3, Solid)] +
    MarkerPairs(RadarValues(pre), RadarValues(post), AXES)
  }

  /** The PRE and POST markers of the first `n` axes, axis by axis. */
  function MarkerPairs(pre: seq<real>, post: seq<real>, n: nat): seq<Layer>
    requires n <= |pre| && n <= |post| && n <= AXES
  {
    if n == 0 then []
    else
      var pair := [Marker(n - 1, pre[n - 1], PRE_GREY, 60, 4), Marker(n - 1, post[n - 1], MARKER_COLOURS[n - 1], 150, 5)];
      MarkerPairs(pre, post, n - 1) + pair
  }

  /** Axis `j`'s PRE marker is at position `2 * j` of the marker list, its POST marker right after. */
  lemma {:induction false} MarkerPairsAt(pre: seq<real>, post: seq<real>, n: nat, j: nat)
    requires n <= |pre| && n <= |post| && n <= AXES && j < n
    ensures |MarkerPairs(pre, post, n)| == 2 * n
    ensures MarkerPairs(pre, post, n)[2 * j] == Marker(j, pre[j], PRE_GREY, 60, 4)
    ensures MarkerPairs(pre, post, n)[2 * j + 1] == Marker(j, post[j], MARKER_COLOURS[j], 150, 5)
  {
    if j < n - 1 {
      MarkerPairsAt(pre, post, n - 1, j);
    } else if n > 1 {
      MarkerPairsAt(pre, post, n - 1, 0);
    }
  }

  /**
   * `_create_radar_chart`: the closed polygon (area, then a solid purple outline), then one
   * marker per axis in the indicator's colour, above the polygon.
   */
  method CreateRadarChart(scores: map<Indicator, real>) returns (layers: seq<Layer>)
    ensures |layers| == 2 + AXES
    ensures layers[0] == Fill(Closed(RadarValues(scores)), PURPLE)
    ensures layers[1] == Outline(Closed(RadarValues(scores)), PURPLE, 3, Solid)
    ensures forall k :: 0 <= k < AXES ==>
      layers[2 + k] == Marker(k, RadarValues(scores)[k], MARKER_COLOURS[k], 150, 5)
    ensures layers == RadarLayers(scores)
  {
    var values := RadarValues(scores);
    var closed := Closed(values);
    layers := [Fill(closed, PURPLE), Outline(closed, PURPLE, 3, Solid)];
    for k := 0 to AXES
      invariant |layers| == 2 + k
      invariant layers[0] == Fill(closed, PURPLE) && layers[1] == Outline(closed, PURPLE, 3, Solid)
      invariant forall j :: 0 <= j < k ==> layers[2 + j] == Marker(j, values[j], MARKER_COLOURS[j], 150, 5)
    {
      layers := layers + [Marker(k, values[k], MARKER_COLOURS[k], 150, 5)];
    }
    assert forall m :: 0 <= m < |layers| ==> layers[m] == RadarLayers(scores)[m];
  }

  /**
   * `_create_comparison_radar_chart`: the PRE polygon (grey, dashed) is drawn before the POST
   * polygon (green, solid); then, axis by axis, a small grey PRE marker at z-order 4 and a large
   * coloured POST marker at z-order 5, so every POST marker sits above every PRE marker.
   */
  method CreateComparisonRadarChart(pre: map<Indicator, real>, post: map<Indicator, real>)
    returns (layers: seq<Layer>)
    ensures |layers| == 4 + 2 * AXES
    ensures layers[0] == Fill(Closed(RadarValues(pre)), PRE_GREY)
    ensures layers[1] == Outline(Closed(RadarValues(pre)), PRE_GREY, 2, Dashed)
    ensures layers[2] == Fill(Closed(RadarValues(post)), GREEN)
    ensures layers[3] == Outline(Closed(RadarValues(post)), GREEN, 3, Solid)
    ensures forall k :: 0 <= k < AXES ==>
      layers[4 + 2 * k] == Marker(k, RadarValues(pre)[k], PRE_GREY, 60, 4) &&
      layers[5 + 2 * k] == Marker(k, RadarValues(post)[k], MARKER_COLOURS[k], 150, 5)
    ensures forall j, k :: 0 <= j < AXES && 0 <= k < AXES ==>
      layers[4 + 2 * j].Marker? && layers[5 + 2 * k].Marker? &&
      layers[4 + 2 * j].zorder < layers[5 + 2 * k].zorder && layers[4 + 2 * j].size < layers[5 + 2 * k].size
    ensures layers == ComparisonRadarLayers(pre, post)
  {
    var preValues := RadarValues(pre);
    var postValues := RadarValues(post);
    var preClosed := Closed(preValues);
    var postClosed := Closed(postValues);
    layers := [Fill(preClosed, PRE_GREY), Outline(preClosed, PRE_GREY, 2, Dashed),
               Fill(postClosed, GREEN), Outline(postClosed, GREEN, 3, Solid)];
    for k := 0 to AXES
      invariant |layers| == 4 + 2 * k
      invariant layers == [Fill(preClosed, PRE_GREY), Outline(preClosed, PRE_GREY, 2, Dashed),
                           Fill(postClosed, GREEN), Outline(postClosed, GREEN, 3, Solid)] +
                          MarkerPairs(preValues, postValues, k)
    {
      layers := layers + [Marker(k, preValues[k], PRE_GREY, 60, 4), Marker(k, postValues[k], MARKER_COLOURS[k], 150, 5)];
    }
    forall j | 0 <= j < AXES
      ensures layers[4 + 2 * j] == Marker(j, preValues[j], PRE_GREY, 60, 4)
      ensures layers[5 + 2 * j] == Marker(j, postValues[j], MARKER_COLOURS[j], 150, 5)
    {
      MarkerPairsAt(preValues, postValues, AXES, j);
    }
    forall j, k | 0 <= j < AXES && 0 <= k < AXES
      ensures layers[4 + 2 * j].Marker? && layers[5 + 2 * k].Marker?
      ensures layers[4 + 2 * j].zorder < layers[5 + 2 * k].zorder && layers[4 + 2 * j].size < layers[5 + 2 * k].size
    {
      assert layers[4 + 2 * j] == Marker(j, preValues[j], PRE_GREY, 60, 4);
      assert layers[5 + 2 * k] == Marker(k, postValues[k], MARKER_COLOURS[k], 150, 5);
    }
  }

  /** `_create_bar_chart`: a full-width grey track, then the score bar in the indicator colour. */
  function CreateBarChart(score: real, colour: string): (c: BarChart)
    ensures |c.layers| == 2
    ensures c.layers[0] == Bar(c.xmax, Some(TRACK_GREY), None, Solid) && c.xmax == SCALE_MAX
    ensures c.layers[1] == Bar(score, Some(colour), None, Solid)
  {
    BarChart([Bar(SCALE_MAX, Some(TRACK_GREY), None, Solid), Bar(score, Some(colour), None, Solid)], SCALE_MAX)
  }

  /**
   * `_create_comparison_bar_chart`: the full-width track, then the filled POST bar, then the
   * dashed, unfilled PRE outline last, so the PRE outline stays visible over the POST fill.
   */
  function CreateComparisonBarChart(pre: real, post: real, colour: string): (c: BarChart)
    ensures |c.layers| == 3
    ensures c.layers[0] == Bar(c.xmax, Some(TRACK_GREY), None, Solid) && c.xmax == SCALE_MAX
    ensures c.layers[1] == Bar(post, Some(colour), None, Solid)
    ensures c.layers[2] == Bar(pre, None, Some(OUTLINE_GREY), Dashed)
    ensures forall k :: 0 <= k < |c.layers| && c.layers[k].face.None? ==> k == |c.layers| - 1
  {
    BarChart([Bar(SCALE_MAX, Some(TRACK_GREY), None, Solid),
              Bar(post, Some(colour), None, Solid),
              Bar(pre, None, Some(OUTLINE_GREY), Dashed)], SCALE_MAX)
  }
}
