/** The header metrics of the original, shorter dashboard and their refresh by
    the data simulation button. Its steps differ from the extended version: a
    response time below 3.5 is raised to 3.5 and one at or above it falls by
    less than 0.3 but not below 3.5; a resources value above 95 is lowered to
    95, one at or below it rises by 0 .. 4 but not above 95, and there is no
    lower bound.
 */
module LegacyDashboard {
  import opened JsNumbers
  import opened MetricSteps
  import Charts

  /** Response time: down by less than 0.3 seconds, never below 3.5. */
  function NextResponseTime(current: real, r: Draw): (next: real)
    ensures next >= 3.5 && next > current - 0.3
    ensures current >= 3.5 ==> next <= current
  {
    MaxReal(3.5, current - r * 0.3)
  }

  /** The response time as the page stores it, with one decimal: never below
      3.5, and from a stored value of at least 3.5 it falls by at most 0.3. */
  function StoredResponseTime(current: real, r: Draw): (next: real)
    ensures OnTenths(next) && next >= 3.5
    ensures OnTenths(current) && current >= 3.5 ==> current - 0.3 <= next <= current
  {
    var x := NextResponseTime(current, r);
    ToFixed1Monotone(3.5, x);
    ToFixed1OnTenths(3.5);
    assert OnTenths(current) && current >= 3.5 ==> current - 0.3 <= ToFixed1(x) <= current by {
      if OnTenths(current) && current >= 3.5 {
        OnTenthsShift(current, -3);
        ToFixed1Between(x, current - 0.3, current);
      }
    }
    ToFixed1(x)
  }

  /** Resources deployed: up by 0 .. 4 points, capped at 95, with no lower clamp. */
  function NextResources(current: int, r: Draw): (next: int)
    ensures next <= 95 && next <= current + 4
    ensures current <= 95 ==> current <= next
  {
    MinInt(95, current + Pick(r, 5))
  }

  /** A value above the cap is pulled down to it: the step is not monotone
      growth for out-of-band values. */
  lemma ResourcesAboveCapDrop(current: int, r: Draw)
    requires current > 95
    ensures NextResources(current, r) == 95 < current
  {
  }

  /** A value below the band is not raised into it: there is no lower clamp. */
  lemma NoLowerClamp(current: int, r: Draw)
    requires current < 0
    ensures NextResources(current, r) < 4
  {
  }

  /** The random draws one refresh consumes. */
  datatype RefreshDraws = RefreshDraws(
    responseTime: Draw, resources: Draw, matchRate: Draw, matchTime: Draw,
    trialCount: Draw, coordination: Draw, chartPoint: Draw, chartBars: seq<Draw>)

  class LegacyMetrics {
    var responseTime: real
    var resourcesDeployed: int
    var matchRate: int
    var matchTime: real
    var trialCount: int
    var coordinationScore: int

    /** The header values the page starts with. */
    constructor (responseTime: real, resourcesDeployed: int, matchRate: int, matchTime: real,
                 trialCount: int, coordinationScore: int)
      ensures this.responseTime == responseTime && this.resourcesDeployed == resourcesDeployed
      ensures this.matchRate == matchRate && this.matchTime == matchTime
      ensures this.trialCount == trialCount && this.coordinationScore == coordinationScore
    {
      this.responseTime := responseTime;
      this.resourcesDeployed := resourcesDeployed;
      this.matchRate := matchRate;
      this.matchTime := matchTime;
      this.trialCount := trialCount;
      this.coordinationScore := coordinationScore;
    }

    method UpdateResponseMetrics(timeDraw: Draw, resourceDraw: Draw)
      modifies this
      ensures responseTime == StoredResponseTime(old(responseTime), timeDraw)
      ensures resourcesDeployed == NextResources(old(resourcesDeployed), resourceDraw)
      ensures OnTenths(responseTime) && responseTime >= 3.5 && resourcesDeployed <= 95
      ensures OnTenths(old(responseTime)) && old(responseTime) >= 3.5 ==>
                old(responseTime) - 0.3 <= responseTime <= old(responseTime)
      ensures old(resourcesDeployed) <= 95 ==> old(resourcesDeployed) <= resourcesDeployed <= old(resourcesDeployed) + 4
      ensures matchRate == old(matchRate) && matchTime == old(matchTime)
      ensures trialCount == old(trialCount) && coordinationScore == old(coordinationScore)
    {
      responseTime := StoredResponseTime(responseTime, timeDraw);
      resourcesDeployed := NextResources(resourcesDeployed, resourceDraw);
    }

    method SimulatePatientMatching(rateDraw: Draw, timeDraw: Draw)
      modifies this
      ensures matchRate == NextMatchRate(old(matchRate), rateDraw)
      ensures matchTime == StoredMatchTime(old(matchTime), timeDraw)
      ensures matchRate <= 99 && matchRate <= old(matchRate) + 2 && OnTenths(matchTime) && matchTime >= 0.3
      ensures responseTime == old(responseTime) && resourcesDeployed == old(resourcesDeployed)
      ensures trialCount == old(trialCount) && coordinationScore == old(coordinationScore)
    {
      matchRate := NextMatchRate(matchRate, rateDraw);
      matchTime := StoredMatchTime(matchTime, timeDraw);
    }

    /** The trial count and coordination steps of a refresh. */
    method RefreshCounts(countDraw: Draw, scoreDraw: Draw)
      modifies this
      ensures trialCount == NextTrialCount(old(trialCount), countDraw)
      ensures coordinationScore == NextCoordination(old(coordinationScore), scoreDraw)
      ensures 35 <= trialCount <= 50 && 80 <= coordinationScore <= 99
      ensures responseTime == old(responseTime) && resourcesDeployed == old(resourcesDeployed)
      ensures matchRate == old(matchRate) && matchTime == old(matchTime)
    {
      trialCount := NextTrialCount(trialCount, countDraw);
      coordinationScore := NextCoordination(coordinationScore, scoreDraw);
    }

    /** One refresh: response metrics, patient matching, trial count,
        coordination score and both charts. */
    method SimulateSystemData(d: RefreshDraws, response: Charts.ResponseChart, trial: Charts.TrialChart)
      requires response.Valid() && |d.chartBars| == |trial.data|
      modifies this, response, trial
      ensures responseTime == StoredResponseTime(old(responseTime), d.responseTime)
      ensures resourcesDeployed == NextResources(old(resourcesDeployed), d.resources)
      ensures matchRate == NextMatchRate(old(matchRate), d.matchRate)
      ensures matchTime == StoredMatchTime(old(matchTime), d.matchTime)
      ensures trialCount == NextTrialCount(old(trialCount), d.trialCount)
      ensures coordinationScore == NextCoordination(old(coordinationScore), d.coordination)
      ensures response.Valid()
      ensures response.data == Charts.PushShift(old(response.data), Charts.NewResponsePoint(d.chartPoint),
                                                |old(response.data)| + 1 > Charts.WindowSize)
      ensures response.labels == Charts.PushShift(old(response.labels), "New",
                                                  |old(response.data)| + 1 > Charts.WindowSize)
      ensures trial.data == Charts.VaryBars(old(trial.data), d.chartBars)
    {
      UpdateResponseMetrics(d.responseTime, d.resources);
      SimulatePatientMatching(d.matchRate, d.matchTime);
      RefreshCounts(d.trialCount, d.coordination);
      Charts.UpdateCharts(response, trial, d.chartPoint, d.chartBars);
    }
  }
}
