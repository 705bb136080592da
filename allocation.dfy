/** Predictive resource allocation: the emergency list is reduced to a pressure
    score, each resource kind gets a recommended quantity, the deployed share of
    it and a shortage-risk percentage.
 */
module Allocation {
  import opened JsNumbers

  /** The severity tag of one displayed emergency entry. */
  datatype Severity = High | Medium | Low

  datatype Resource = Ambulances | Kits | Teams

  /** What one predictive block displays. */
  datatype Block = Block(recommended: int, deployed: int, riskPct: int)

  datatype Plan = Plan(ambulances: Block, kits: Block, teams: Block)

  /** Stock recommended when there is no pressure at all. */
  function Base(k: Resource): int
  {
    match k
    case Ambulances => 6
    case Kits => 80
    case Teams => 4
  }

  /** Extra stock recommended per point of pressure. */
  function Weight(k: Resource): real
  {
    match k
    case Ambulances => 1.2
    case Kits => 10.0
    case Teams => 0.8
  }

  /** Number of entries of severity `sev` in `s`. */
  function Count(s: seq<Severity>, sev: Severity): nat
  {
    if s == [] then 0
    else Count(s[..|s| - 1], sev) + (if s[|s| - 1] == sev then 1 else 0)
  }

  /** High emergencies weigh one and a half, medium ones one, low ones nothing. */
  function Pressure(high: int, medium: int): real
  {
    high as real * 1.5 + medium as real
  }

  function Recommended(k: Resource, pressure: real): int
  {
    Round(Base(k) as real + pressure * Weight(k))
  }

  /** The deployed quantity: the recommended one scaled by `deployedPct / 100`. */
  function DeployedCount(recommended: int, deployedPct: int): int
  {
    Round(recommended as real * (deployedPct as real / 100.0))
  }

  /** The risk percentage shown by `setPredictiveBlock`: the unmet share of the
      recommendation, rounded and capped at 99, where a recommendation of 0 is
      divided as 1. */
  function ShortageRisk(recommended: int, deployed: int): (risk: int)
    ensures risk <= 99
    ensures recommended >= 0 ==> 0 <= risk
    ensures deployed >= recommended ==> risk == 0
  {
    var shortage := MaxInt(0, recommended - deployed);
    var divisor := if recommended == 0 then 1 else recommended;
    assert recommended >= 0 ==> shortage as real / divisor as real >= 0.0;
    MinInt(99, Round(shortage as real / divisor as real * 100.0))
  }

  /** The block shows both quantities and a risk in [0, 99] for a non-negative
      recommendation, which is 0 when the deployment covers it. */
  function SetPredictiveBlock(recommended: int, deployed: int): (b: Block)
    ensures b.recommended == recommended && b.deployed == deployed
    ensures b.riskPct <= 99 && (recommended >= 0 ==> 0 <= b.riskPct)
    ensures deployed >= recommended ==> b.riskPct == 0
  {
    Block(recommended, deployed, ShortageRisk(recommended, deployed))
  }

  function BlockFor(k: Resource, pressure: real, deployedPct: int): Block
  {
    var rec := Recommended(k, pressure);
    SetPredictiveBlock(rec, DeployedCount(rec, deployedPct))
  }

  /** The whole allocation panel for `high` high and `medium` medium emergencies. */
  function PlanFor(high: nat, medium: nat, deployedPct: int): Plan
  {
    var p := Pressure(high, medium);
    Plan(BlockFor(Ambulances, p, deployedPct), BlockFor(Kits, p, deployedPct), BlockFor(Teams, p, deployedPct))
  }

  /** What a block of kind `k` promises: at least the base stock recommended, a
      risk in [0, 99], and, for a deployed share within [0, 100], a deployed
      quantity between 0 and the recommended one. */
  predicate SoundBlock(k: Resource, b: Block, deployedPct: int)
  {
    && b.recommended >= Base(k)
    && 0 <= b.riskPct <= 99
    && (0 <= deployedPct <= 100 ==> 0 <= b.deployed <= b.recommended)
  }

  /** Counts the high and medium entries (each entry at most once, high checked
      first) and derives the three predictive blocks. */
  method UpdatePredictiveAllocation(emergencies: seq<Severity>, deployedPct: int) returns (plan: Plan)
    ensures plan == PlanFor(Count(emergencies, High), Count(emergencies, Medium), deployedPct)
    ensures Count(emergencies, High) + Count(emergencies, Medium) <= |emergencies|
    ensures SoundBlock(Ambulances, plan.ambulances, deployedPct)
    ensures SoundBlock(Kits, plan.kits, deployedPct)
    ensures SoundBlock(Teams, plan.teams, deployedPct)
  {
    var high, medium := 0, 0;
    var i := 0;
    while i < |emergencies|
      invariant 0 <= i <= |emergencies|
      invariant high == Count(emergencies[..i], High)
      invariant medium == Count(emergencies[..i], Medium)
    {
      assert emergencies[..i + 1][..i] == emergencies[..i];
      if emergencies[i] == High {
        high := high + 1;
      } else if emergencies[i] == Medium {
        medium := medium + 1;
      }
      i := i + 1;
    }
    assert emergencies[..i] == emergencies;
    CountPartition(emergencies);
    var pressure := Pressure(high, medium);
    var recAmbulances := Recommended(Ambulances, pressure);
    var recKits := Recommended(Kits, pressure);
    var recTeams := Recommended(Teams, pressure);
    plan := Plan(
      SetPredictiveBlock(recAmbulances, DeployedCount(recAmbulances, deployedPct)),
      SetPredictiveBlock(recKits, DeployedCount(recKits, deployedPct)),
      SetPredictiveBlock(recTeams, DeployedCount(recTeams, deployedPct)));
    PlanSound(high, medium, deployedPct);
  }

  /** Every entry is counted under exactly one severity. */
  lemma {:induction false} CountPartition(s: seq<Severity>)
    ensures Count(s, High) + Count(s, Medium) + Count(s, Low) == |s|
  {
    if s != [] {
      CountPartition(s[..|s| - 1]);
    }
  }

  /** Counting distributes over concatenation of emergency lists. */
  lemma {:induction false} CountConcat(a: seq<Severity>, b: seq<Severity>, sev: Severity)
    ensures Count(a + b, sev) == Count(a, sev) + Count(b, sev)
  {
    if b == [] {
      assert a + b == a;
    } else {
      CountConcat(a, b[..|b| - 1], sev);
      assert (a + b)[..|a + b| - 1] == a + b[..|b| - 1];
    }
  }

  /** A low-severity entry changes neither count, wherever it is inserted. */
  lemma LowIgnored(a: seq<Severity>, b: seq<Severity>)
    ensures Count(a + [Low] + b, High) == Count(a + b, High)
    ensures Count(a + [Low] + b, Medium) == Count(a + b, Medium)
  {
    forall sev | sev == High || sev == Medium
      ensures Count(a + [Low] + b, sev) == Count(a + b, sev)
    {
      CountConcat(a + [Low], b, sev);
      CountConcat(a, [Low], sev);
      CountConcat(a, b, sev);
      assert Count([Low], sev) == Count([], sev) + 0 by {
        assert [Low][..0] == [];
      }
    }
  }

  /** More pressure never lowers a recommendation. */
  lemma RecommendedMonotone(k: Resource, p1: real, p2: real)
    requires p1 <= p2
    ensures Recommended(k, p1) <= Recommended(k, p2)
  {
    RoundMonotone(Base(k) as real + p1 * Weight(k), Base(k) as real + p2 * Weight(k));
  }

  /** More high or medium emergencies never lower any recommendation. */
  lemma RecommendedGrowsWithEmergencies(k: Resource, h1: nat, m1: nat, h2: nat, m2: nat)
    requires h1 <= h2 && m1 <= m2
    ensures Recommended(k, Pressure(h1, m1)) <= Recommended(k, Pressure(h2, m2))
  {
    RecommendedMonotone(k, Pressure(h1, m1), Pressure(h2, m2));
  }

  /** With no negative pressure the base stock is always recommended. */
  lemma RecommendedAtLeastBase(k: Resource, p: real)
    requires p >= 0.0
    ensures Recommended(k, p) >= Base(k)
  {
    RoundMonotone(Base(k) as real, Base(k) as real + p * Weight(k));
    RoundWhole(Base(k));
  }

  /** A deployed share within [0, 100] never deploys more than is recommended,
      nor a negative quantity. */
  lemma DeployedWithinRecommended(recommended: int, deployedPct: int)
    requires recommended >= 0 && 0 <= deployedPct <= 100
    ensures 0 <= DeployedCount(recommended, deployedPct) <= recommended
  {
    var f := deployedPct as real / 100.0;
    assert 0.0 <= f <= 1.0;
    var x := recommended as real * f;
    assert 0.0 <= x <= recommended as real by {
      assert recommended as real * (1.0 - f) >= 0.0;
    }
    RoundBetweenWhole(x, 0, recommended);
  }

  /** Deploying more never raises the shortage risk. */
  lemma RiskNonIncreasingInDeployed(recommended: int, d1: int, d2: int)
    requires recommended >= 0 && d1 <= d2
    ensures ShortageRisk(recommended, d2) <= ShortageRisk(recommended, d1)
  {
    var divisor := if recommended == 0 then 1 else recommended;
    var s1 := MaxInt(0, recommended - d1);
    var s2 := MaxInt(0, recommended - d2);
    assert s2 <= s1;
    assert s2 as real / divisor as real <= s1 as real / divisor as real by {
      assert (s1 - s2) as real / divisor as real >= 0.0;
    }
    RoundMonotone(s2 as real / divisor as real * 100.0, s1 as real / divisor as real * 100.0);
  }

  /** For recommendations up to 200 any shortfall is visible as a risk of at
      least 1%. */
  lemma ShortfallIsVisible(recommended: int, deployed: int)
    requires 0 < recommended <= 200 && deployed < recommended
    ensures ShortageRisk(recommended, deployed) >= 1
  {
    var s := recommended - deployed;
    var q := s as real / recommended as real * 100.0;
    assert q >= 0.5 by {
      assert s as real / recommended as real >= 1.0 / recommended as real;
      assert 1.0 / recommended as real >= 1.0 / 200.0;
    }
    RoundMonotone(0.5, q);
  }

  /** Every block of the plan keeps the promises of `SoundBlock`. */
  lemma PlanSound(high: nat, medium: nat, deployedPct: int)
    ensures SoundBlock(Ambulances, PlanFor(high, medium, deployedPct).ambulances, deployedPct)
    ensures SoundBlock(Kits, PlanFor(high, medium, deployedPct).kits, deployedPct)
    ensures SoundBlock(Teams, PlanFor(high, medium, deployedPct).teams, deployedPct)
  {
    var p := Pressure(high, medium);
    forall k: Resource
      ensures SoundBlock(k, BlockFor(k, p, deployedPct), deployedPct)
    {
      RecommendedAtLeastBase(k, p);
      if 0 <= deployedPct <= 100 {
        DeployedWithinRecommended(Recommended(k, p), deployedPct);
      }
    }
  }
}
