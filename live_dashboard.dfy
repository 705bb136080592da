/** The header metrics of the extended dashboard and their refresh by the
    project control buttons. A refresh moves every metric by a random step
    within its band, stores the two times with one decimal, and updates the
    charts. It then recomputes the allocation, trial and status panels from the
    stored values, and replans the fixed route with a newly drawn distance.
 */
module LiveDashboard {
  import opened JsNumbers
  import opened MetricSteps
  import Charts
  import Allocation
  import TrialOutcome
  import Route
  import Status

  /** Response time: a step within [-0.2, 0.2), kept within [3.2, 5.0]. */
  function NextResponseTime(current: real, r: Draw): (next: real)
    ensures 3.2 <= next <= 5.0
    ensures 3.2 <= current <= 5.0 ==> current - 0.2 <= next <= current + 0.2
  {
    MinReal(5.0, MaxReal(3.2, current + (r - 0.5) * 0.4))
  }

  /** The response time as the page stores it, with one decimal. It stays within
      [3.2, 5.0], and from a stored value in the band it moves by at most 0.2. */
  function StoredResponseTime(current: real, r: Draw): (next: real)
    ensures OnTenths(next) && 3.2 <= next <= 5.0
    ensures OnTenths(current) && 3.2 <= current <= 5.0 ==> current - 0.2 <= next <= current + 0.2
  {
    var x := NextResponseTime(current, r);
    ToFixed1Between(x, 3.2, 5.0);
    assert OnTenths(current) && 3.2 <= current <= 5.0 ==> current - 0.2 <= ToFixed1(x) <= current + 0.2 by {
      if OnTenths(current) && 3.2 <= current <= 5.0 {
        OnTenthsShift(current, -2);
        OnTenthsShift(current, 2);
        ToFixed1Between(x, current - 0.2, current + 0.2);
      }
    }
    ToFixed1(x)
  }

  /** `Math.floor((Math.random() - 0.5) * 8)`: a step of -4 .. 3. */
  function ResourceDelta(r: Draw): (d: int)
    ensures -4 <= d <= 3
  {
    ((r - 0.5) * 8.0).Floor
  }

  /** Resources deployed: a step of -4 .. 3 points, kept within [70, 99]. */
  function NextResources(current: int, r: Draw): (next: int)
    ensures 70 <= next <= 99
    ensures 70 <= current <= 99 ==> current - 4 <= next <= current + 3
  {
    MinInt(99, MaxInt(70, current + ResourceDelta(r)))
  }

  /** The random draws one refresh consumes. */
  datatype RefreshDraws = RefreshDraws(
    responseTime: Draw, resources: Draw, matchRate: Draw, matchTime: Draw,
    trialCount: Draw, coordination: Draw, chartPoint: Draw, chartBars: seq<Draw>, routeDistance: Draw)

  /** What the intelligence panels show after a refresh. */
  datatype Panels = Panels(allocation: Allocation.Plan, trialOutcome: TrialOutcome.Outcome,
                           route: Route.RoutePlan, badges: Status.Badges)

  class LiveMetrics {
    var responseTime: real
    var resourcesDeployed: int
    var matchRate: int
    var matchTime: real
    var trialCount: int
    var coordinationScore: int

    /** The header values the page starts with. */
    constructor (responseTime: real, resourcesDeployed: int, matchRate: int, matchTime: real,
                 trialCount: int, coordinationScore: int)
      ensures this.responseTime == responseTime && this.resourcesDeployed == resourcesDeployed
      ensures this.matchRate == matchRate && this.matchTime == matchTime
      ensures this.trialCount == trialCount && this.coordinationScore == coordinationScore
    {
      this.responseTime := responseTime;
      this.resourcesDeployed := resourcesDeployed;
      this.matchRate := matchRate;
      this.matchTime := matchTime;
      this.trialCount := trialCount;
      this.coordinationScore := coordinationScore;
    }

    method UpdateResponseMetrics(timeDraw: Draw, resourceDraw: Draw)
      modifies this
      ensures responseTime == StoredResponseTime(old(responseTime), timeDraw)
      ensures resourcesDeployed == NextResources(old(resourcesDeployed), resourceDraw)
      ensures OnTenths(responseTime) && 3.2 <= responseTime <= 5.0 && 70 <= resourcesDeployed <= 99
      ensures matchRate == old(matchRate) && matchTime == old(matchTime)
      ensures trialCount == old(trialCount) && coordinationScore == old(coordinationScore)
    {
      responseTime := StoredResponseTime(responseTime, timeDraw);
      resourcesDeployed := NextResources(resourcesDeployed, resourceDraw);
    }

    method SimulatePatientMatching(rateDraw: Draw, timeDraw: Draw)
      modifies this
      ensures matchRate == NextMatchRate(old(matchRate), rateDraw)
      ensures matchTime == StoredMatchTime(old(matchTime), timeDraw)
      ensures matchRate <= 99 && OnTenths(matchTime) && matchTime >= 0.3
      ensures responseTime == old(responseTime) && resourcesDeployed == old(resourcesDeployed)
      ensures trialCount == old(trialCount) && coordinationScore == old(coordinationScore)
    {
      matchRate := NextMatchRate(matchRate, rateDraw);
      matchTime := StoredMatchTime(matchTime, timeDraw);
    }

    /** The trial count and coordination steps of a refresh. */
    method RefreshCounts(countDraw: Draw, scoreDraw: Draw)
      modifies this
      ensures trialCount == NextTrialCount(old(trialCount), countDraw)
      ensures coordinationScore == NextCoordination(old(coordinationScore), scoreDraw)
      ensures 35 <= trialCount <= 50 && 80 <= coordinationScore <= 99
      ensures responseTime == old(responseTime) && resourcesDeployed == old(resourcesDeployed)
      ensures matchRate == old(matchRate) && matchTime == old(matchTime)
    {
      trialCount := NextTrialCount(trialCount, countDraw);
      coordinationScore := NextCoordination(coordinationScore, scoreDraw);
    }

    /** One refresh of the whole dashboard. The route is always replanned
        without an origin, so it falls back to the fixed route. */
    method SimulateSystemData(d: RefreshDraws, response: Charts.ResponseChart, trial: Charts.TrialChart,
                              emergencies: seq<Allocation.Severity>, blockedSegments: int)
      returns (panels: Panels)
      requires response.Valid() && |d.chartBars| == |trial.data|
      modifies this, response, trial
      ensures responseTime == StoredResponseTime(old(responseTime), d.responseTime)
      ensures resourcesDeployed == NextResources(old(resourcesDeployed), d.resources)
      ensures matchRate == NextMatchRate(old(matchRate), d.matchRate)
      ensures matchTime == StoredMatchTime(old(matchTime), d.matchTime)
      ensures trialCount == NextTrialCount(old(trialCount), d.trialCount)
      ensures coordinationScore == NextCoordination(old(coordinationScore), d.coordination)
      ensures response.Valid()
      ensures response.data == Charts.PushShift(old(response.data), Charts.NewResponsePoint(d.chartPoint),
                                                |old(response.data)| + 1 > Charts.WindowSize)
      ensures response.labels == Charts.PushShift(old(response.labels), "New",
                                                  |old(response.data)| + 1 > Charts.WindowSize)
      ensures trial.data == Charts.VaryBars(old(trial.data), d.chartBars)
      ensures panels.allocation == Allocation.PlanFor(Allocation.Count(emergencies, Allocation.High),
                                                      Allocation.Count(emergencies, Allocation.Medium),
                                                      resourcesDeployed)
      ensures panels.trialOutcome == TrialOutcome.UpdateTrialSuccessPredictor(trialCount, matchRate)
      ensures panels.route == Route.UpdateRoutePlan(Route.None, Route.None, 0.0, d.routeDistance, blockedSegments)
      ensures panels.route.coords == Route.SafeRouteCoords() && 12 <= panels.route.etaMin <= 15
      ensures panels.badges == Status.HeaderStatusBadges(responseTime, resourcesDeployed, coordinationScore,
                                                         matchRate, matchTime)
    {
      UpdateResponseMetrics(d.responseTime, d.resources);
      SimulatePatientMatching(d.matchRate, d.matchTime);
      RefreshCounts(d.trialCount, d.coordination);
      Charts.UpdateCharts(response, trial, d.chartPoint, d.chartBars);
      var allocation := Allocation.UpdatePredictiveAllocation(emergencies, resourcesDeployed);
      var outcome := TrialOutcome.UpdateTrialSuccessPredictor(trialCount, matchRate);
      var route := Route.UpdateRoutePlan(Route.None, Route.None, 0.0, d.routeDistance, blockedSegments);
      Route.DefaultRouteEta(d.routeDistance);
      var badges := Status.HeaderStatusBadges(responseTime, resourcesDeployed, coordinationScore, matchRate, matchTime);
      panels := Panels(allocation, outcome, route, badges);
    }
  }

  /** After any refresh the resources value is a valid deployed share, so
      every allocation block deploys between 0 and its recommendation. */
  lemma RefreshedAllocationSound(current: int, r: Draw, high: nat, medium: nat)
    ensures var pct := NextResources(current, r);
      && 0 <= pct <= 100
      && Allocation.SoundBlock(Allocation.Ambulances, Allocation.PlanFor(high, medium, pct).ambulances, pct)
      && Allocation.SoundBlock(Allocation.Kits, Allocation.PlanFor(high, medium, pct).kits, pct)
      && Allocation.SoundBlock(Allocation.Teams, Allocation.PlanFor(high, medium, pct).teams, pct)
  {
    Allocation.PlanSound(high, medium, NextResources(current, r));
  }

  /** After any refresh the disaster badge is never worse than warning when the
      coordination score is at least 80 and the response time at most 5.0,
      which the refreshed bands guarantee. */
  lemma RefreshedDisasterNeverRisk(t: real, rt: Draw, res: int, rr: Draw, co: int, rc: Draw)
    ensures Status.ClassifyDisasterStatus(StoredResponseTime(t, rt), NextResources(res, rr),
                                          NextCoordination(co, rc)).level != Status.Risk
  {
  }
}
