/** PredictionChart.js: the bar chart of a prediction's class
    probabilities. One bar per probability entry, its height the probability
    as a percentage, its colour chosen from the class label. */
module PredictionChart {
  import opened Wrappers
  import Labels

  /** One element of the chart's `data`: the `class` key and the `value`
      the bar is drawn with. */
  datatype Bar = Bar(className: string, value: real)

  const HealthyFill := "#4caf50"
  const EarlyBlightFill := "#ff9800"
  const LateBlightFill := "#f44336"
  const OtherFill := "#2196f3"

  /** `Object.entries(probabilities).map(...)`: one bar per entry, in entry
      order, labelled with the key and scaled to percent. */
  function Bars(entries: seq<(string, real)>): (bars: seq<Bar>)
    ensures |bars| == |entries|
    ensures forall i :: 0 <= i < |entries| ==>
      bars[i].className == entries[i].0 && bars[i].value == entries[i].1 * 100.0
  {
    if entries == [] then []
    else [Bar(entries[0].0, entries[0].1 * 100.0)] + Bars(entries[1..])
  }

  /** The chart's data; absent probabilities render nothing. */
  function ChartData(probabilities: Option<seq<(string, real)>>): (data: Option<seq<Bar>>)
    ensures data.None? <==> probabilities.None?
    ensures data.Some? ==> data.value == Bars(probabilities.value)
    ensures data.Some? ==> |data.value| == |probabilities.value|
  {
    match probabilities
    case None => None
    case Some(entries) => Some(Bars(entries))
  }

  /** Reading the probabilities back from the bars. */
  function Probabilities(bars: seq<Bar>): (entries: seq<(string, real)>)
    ensures |entries| == |bars|
  {
    if bars == [] then []
    else [(bars[0].className, bars[0].value / 100.0)] + Probabilities(bars[1..])
  }

  /** The chart loses nothing: every label and probability can be read back
      from the bars, in order. */
  lemma {:induction false} ChartRoundTrip(entries: seq<(string, real)>)
    ensures Probabilities(Bars(entries)) == entries
  {
    if entries != [] {
      ChartRoundTrip(entries[1..]);
      assert Bars(entries)[1..] == Bars(entries[1..]);
    }
  }

  /** `getBarColor`: a fixed colour per known class, blue otherwise. */
  function BarColor(className: string): (fill: string)
    ensures fill == OtherFill <==> !Labels.KnownClass(className)
  {
    if className == Labels.Healthy then HealthyFill
    else if className == Labels.EarlyBlight then EarlyBlightFill
    else if className == Labels.LateBlight then LateBlightFill
    else OtherFill
  }

  /** The `<Cell>` children of the bar series: exactly one per data entry,
      filled with the colour of that entry's class. */
  function Cells(data: seq<Bar>): (fills: seq<string>)
    ensures |fills| == |data|
    ensures forall i :: 0 <= i < |data| ==> fills[i] == BarColor(data[i].className)
  {
    if data == [] then []
    else [BarColor(data[0].className)] + Cells(data[1..])
  }

  /** The bar colours split the labels exactly as the chips' class colours
      do: two labels share a bar colour iff they share a chip colour. */
  lemma BarColorFollowsClassColor(a: string, b: string)
    ensures BarColor(a) == BarColor(b) <==> Labels.ClassColor(a) == Labels.ClassColor(b)
  {
  }
}
