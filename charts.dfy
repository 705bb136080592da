/** The two analytics charts. The response chart is a seven-point window: a new
    point is pushed with the label "New" and, once the data has more than seven
    points, the oldest point and label are shifted out. The trial chart varies
    every bar by a random step and clamps it into [75, 99].
 */
module Charts {
  import opened JsNumbers

  /** Points the response chart keeps when it starts within the limit. */
  const WindowSize: nat := 7

  /** `s` with `x` pushed at the end and, when `shift` holds, its first entry
      shifted out. */
  function PushShift<T>(s: seq<T>, x: T, shift: bool): (r: seq<T>)
    requires shift ==> |s| > 0
    ensures |r| == (if shift then |s| else |s| + 1)
    ensures r == (s + [x])[|s| + 1 - |r|..] && r[|r| - 1] == x
  {
    if shift then (s + [x])[1..] else s + [x]
  }

  /** The value of a new response point, 3.8 plus up to 0.8. */
  function NewResponsePoint(r: Draw): (p: real)
    ensures 3.8 <= p < 4.6
  {
    3.8 + r * 0.8
  }

  /** One bar of the trial chart after a random step in -5 .. 4 and the clamp. */
  function VaryBar(value: int, r: Draw): (v: int)
    ensures 75 <= v <= 99
    ensures 75 <= value <= 99 ==> value - 5 <= v <= value + 4
  {
    var change := Pick(r, 10) - 5;
    MaxInt(75, MinInt(99, value + change))
  }

  /** The trial chart's data after one update, one draw per bar. */
  function VaryBars(data: seq<int>, draws: seq<Draw>): (r: seq<int>)
    requires |draws| == |data|
    ensures |r| == |data|
    ensures forall i :: 0 <= i < |r| ==> r[i] == VaryBar(data[i], draws[i])
  {
    seq(|data|, i requires 0 <= i < |data| => VaryBar(data[i], draws[i]))
  }

  /** After an update every bar is in [75, 99], and a bar that already was
      moves by at most five. */
  lemma VaryBarsBounded(data: seq<int>, draws: seq<Draw>)
    requires |draws| == |data|
    ensures forall i :: 0 <= i < |data| ==> 75 <= VaryBars(data, draws)[i] <= 99
    ensures forall i :: 0 <= i < |data| && 75 <= data[i] <= 99 ==>
              data[i] - 5 <= VaryBars(data, draws)[i] <= data[i] + 4
  {
  }

  /** The response window keeps at most seven points if it had at most seven,
      and keeps its last seven values otherwise. */
  lemma WindowBounded(data: seq<real>, x: real)
    ensures var r := PushShift(data, x, |data| + 1 > WindowSize);
      && (|data| <= WindowSize ==> |r| <= WindowSize)
      && (|data| < WindowSize ==> r == data + [x])
      && (|data| >= WindowSize ==> |r| == |data| && r == data[1..] + [x])
  {
  }

  class ResponseChart {
    var data: seq<real>
    var labels: seq<string>

    /** Data and labels move together. */
    ghost predicate Valid()
      reads this
    {
      |data| == |labels|
    }

    /** The week of response times the chart starts with. */
    constructor ()
      ensures Valid() && |data| == WindowSize
      ensures data == [5.2, 4.8, 4.5, 4.2, 4.1, 4.3, 4.0]
      ensures labels == ["Mon", "Tue", "Wed", "Thu", "Fri", "Sat", "Sun"]
    {
      data := [5.2, 4.8, 4.5, 4.2, 4.1, 4.3, 4.0];
      labels := ["Mon", "Tue", "Wed", "Thu", "Fri", "Sat", "Sun"];
    }

    /** Pushes a new point labelled "New"; shifts both arrays when the data
        has more than seven points. */
    method AddPoint(r: Draw)
      requires Valid()
      modifies this
      ensures Valid()
      ensures data == PushShift(old(data), NewResponsePoint(r), |old(data)| + 1 > WindowSize)
      ensures labels == PushShift(old(labels), "New", |old(data)| + 1 > WindowSize)
      ensures |old(data)| <= WindowSize ==> |data| <= WindowSize
    {
      data := data + [NewResponsePoint(r)];
      labels := labels + ["New"];
      if |data| > WindowSize {
        data := data[1..];
        labels := labels[1..];
      }
    }
  }

  class TrialChart {
    var data: seq<int>

    /** The matching success rates the chart starts with. */
    constructor ()
      ensures data == [92, 88, 95, 85, 90]
    {
      data := [92, 88, 95, 85, 90];
    }

    /** Replaces every bar by its varied value. */
    method Vary(draws: seq<Draw>)
      requires |draws| == |data|
      modifies this
      ensures data == VaryBars(old(data), draws)
      ensures |data| == |old(data)| && forall i :: 0 <= i < |data| ==> 75 <= data[i] <= 99
    {
      data := VaryBars(data, draws);
    }
  }

  /** One chart refresh: a response point and a variation of every trial bar. */
  method UpdateCharts(response: ResponseChart, trial: TrialChart, pointDraw: Draw, barDraws: seq<Draw>)
    requires response.Valid() && |barDraws| == |trial.data|
    modifies response, trial
    ensures response.Valid()
    ensures response.data == PushShift(old(response.data), NewResponsePoint(pointDraw), |old(response.data)| + 1 > WindowSize)
    ensures response.labels == PushShift(old(response.labels), "New", |old(response.data)| + 1 > WindowSize)
    ensures trial.data == VaryBars(old(trial.data), barDraws)
  {
    response.AddPoint(pointDraw);
    trial.Vary(barDraws);
  }
}
