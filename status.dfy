/** The header status badges: a three-tier ladder for the disaster metrics, one
    for the trial metrics, and an overall badge that takes the worse of the two.
 */
module Status {

  datatype Level = Ok | Warning | Risk

  /** What one badge shows: a level and its label. */
  datatype Status = Status(level: Level, text: string)

  /** The level names the classifiers hand to `classifyOverallStatus`. */
  function Name(l: Level): string
  {
    match l
    case Ok => "ok"
    case Warning => "warning"
    case Risk => "risk"
  }

  /** Rank of a level name: ok 2, warning 1, risk 0, and any other name 1. */
  function Rank(name: string): int
  {
    if name == "ok" then 2
    else if name == "warning" then 1
    else if name == "risk" then 0
    else 1
  }

  /** Rank of a level as a number, for comparing levels. */
  function LevelRank(l: Level): nat
  {
    match l
    case Ok => 2
    case Warning => 1
    case Risk => 0
  }

  /** The worse of two levels: an independent reference for the overall badge. */
  function Worse(a: Level, b: Level): (w: Level)
    ensures LevelRank(w) <= LevelRank(a) && LevelRank(w) <= LevelRank(b)
    ensures w == a || w == b
  {
    if LevelRank(a) <= LevelRank(b) then a else b
  }

  predicate DisasterOkThresholds(responseTime: real, resourcesPct: int, coordination: int)
  {
    responseTime <= 4.5 && resourcesPct >= 80 && coordination >= 90
  }

  predicate DisasterWarningThresholds(responseTime: real, resourcesPct: int, coordination: int)
  {
    responseTime <= 5.0 && resourcesPct >= 70 && coordination >= 80
  }

  predicate TrialOkThresholds(matchRate: int, matchTime: real)
  {
    matchRate >= 92 && matchTime <= 1.0
  }

  predicate TrialWarningThresholds(matchRate: int, matchTime: real)
  {
    matchRate >= 85 && matchTime <= 1.5
  }

  /** The label of each disaster level. */
  function DisasterText(l: Level): string
  {
    match l
    case Ok => "Disaster Response Coordinator - Advanced"
    case Warning => "Disaster Response Coordinator - Stable"
    case Risk => "Disaster Response Coordinator - Needs Attention"
  }

  /** The disaster ladder: ok exactly when the ok thresholds hold, risk exactly
      when even the warning thresholds fail, warning otherwise. */
  function ClassifyDisasterStatus(responseTime: real, resourcesPct: int, coordination: int): (s: Status)
    ensures s.level == Ok <==> DisasterOkThresholds(responseTime, resourcesPct, coordination)
    ensures s.level == Risk <==> !DisasterWarningThresholds(responseTime, resourcesPct, coordination)
    ensures s.text == DisasterText(s.level)
  {
    if DisasterOkThresholds(responseTime, resourcesPct, coordination) then
      Status(Ok, "Disaster Response Coordinator - Advanced")
    else if DisasterWarningThresholds(responseTime, resourcesPct, coordination) then
      Status(Warning, "Disaster Response Coordinator - Stable")
    else
      Status(Risk, "Disaster Response Coordinator - Needs Attention")
  }

  /** The label of each trial level. */
  function TrialText(l: Level): string
  {
    match l
    case Ok => "Clinical Trial Matcher - Advanced"
    case Warning => "Clinical Trial Matcher - Stable"
    case Risk => "Clinical Trial Matcher - Needs Tuning"
  }

  /** The trial ladder: ok exactly when the ok thresholds hold, risk exactly
      when even the warning thresholds fail, warning otherwise. */
  function ClassifyTrialStatus(matchRate: int, matchTime: real): (s: Status)
    ensures s.level == Ok <==> TrialOkThresholds(matchRate, matchTime)
    ensures s.level == Risk <==> !TrialWarningThresholds(matchRate, matchTime)
    ensures s.text == TrialText(s.level)
  {
    if TrialOkThresholds(matchRate, matchTime) then
      Status(Ok, "Clinical Trial Matcher - Advanced")
    else if TrialWarningThresholds(matchRate, matchTime) then
      Status(Warning, "Clinical Trial Matcher - Stable")
    else
      Status(Risk, "Clinical Trial Matcher - Needs Tuning")
  }

  /** The label of each overall level. */
  function OverallText(l: Level): string
  {
    match l
    case Ok => "Ready for Implementation"
    case Warning => "Ready with Monitoring"
    case Risk => "Prototype / Not Ready"
  }

  /** Combines two level names by the minimum of their ranks. */
  function ClassifyOverallStatus(disasterLevel: string, trialLevel: string): (s: Status)
    ensures s.text == OverallText(s.level)
    ensures s.level == Risk <==> Rank(disasterLevel) == 0 || Rank(trialLevel) == 0
    ensures s.level == Ok <==> disasterLevel == "ok" && trialLevel == "ok"
  {
    var d := Rank(disasterLevel);
    var t := Rank(trialLevel);
    var minLevel := if d <= t then d else t;
    if minLevel == 2 then Status(Ok, "Ready for Implementation")
    else if minLevel == 1 then Status(Warning, "Ready with Monitoring")
    else Status(Risk, "Prototype / Not Ready")
  }

  /** The three badges derived from the live header metrics. */
  datatype Badges = Badges(disaster: Status, trials: Status, overall: Status)

  function HeaderStatusBadges(responseTime: real, resourcesPct: int, coordination: int,
                              matchRate: int, matchTime: real): (b: Badges)
    ensures b.overall.level == Worse(b.disaster.level, b.trials.level)
  {
    var disaster := ClassifyDisasterStatus(responseTime, resourcesPct, coordination);
    var trials := ClassifyTrialStatus(matchRate, matchTime);
    OverallIsWorse(disaster.level, trials.level);
    Badges(disaster, trials, ClassifyOverallStatus(Name(disaster.level), Name(trials.level)))
  }

  /** Each level name ranks as its level. */
  lemma RankOfName(l: Level)
    ensures Rank(Name(l)) == LevelRank(l)
  {
  }

  /** On the names the classifiers produce, the overall level is the worse of
      the two, with the matching label. */
  lemma OverallIsWorse(a: Level, b: Level)
    ensures ClassifyOverallStatus(Name(a), Name(b)).level == Worse(a, b)
    ensures ClassifyOverallStatus(Name(a), Name(b)).text == OverallText(Worse(a, b))
  {
    RankOfName(a);
    RankOfName(b);
  }

  /** A level name that is none of ok, warning, risk counts as warning. */
  lemma UnknownNameCountsAsWarning(unknown: string, other: Level)
    requires unknown != "ok" && unknown != "warning" && unknown != "risk"
    ensures ClassifyOverallStatus(unknown, Name(other)).level == Worse(Warning, other)
    ensures ClassifyOverallStatus(Name(other), unknown).level == Worse(other, Warning)
  {
    RankOfName(other);
  }

  /** The ok thresholds are stricter than the warning thresholds. */
  lemma OkThresholdsImplyWarning(responseTime: real, resourcesPct: int, coordination: int,
                                 matchRate: int, matchTime: real)
    ensures DisasterOkThresholds(responseTime, resourcesPct, coordination)
            ==> DisasterWarningThresholds(responseTime, resourcesPct, coordination)
    ensures TrialOkThresholds(matchRate, matchTime) ==> TrialWarningThresholds(matchRate, matchTime)
  {
  }

  /** A faster response, more resources deployed or better coordination never
      give a worse disaster level. */
  lemma DisasterMonotone(rt1: real, res1: int, co1: int, rt2: real, res2: int, co2: int)
    requires rt2 <= rt1 && res1 <= res2 && co1 <= co2
    ensures LevelRank(ClassifyDisasterStatus(rt1, res1, co1).level)
            <= LevelRank(ClassifyDisasterStatus(rt2, res2, co2).level)
  {
  }

  /** A higher match rate or a shorter match time never give a worse trial level. */
  lemma TrialMonotone(rate1: int, time1: real, rate2: int, time2: real)
    requires rate1 <= rate2 && time2 <= time1
    ensures LevelRank(ClassifyTrialStatus(rate1, time1).level)
            <= LevelRank(ClassifyTrialStatus(rate2, time2).level)
  {
  }
}
