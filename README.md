# Disaster response and clinical trial dashboard: the derived-metrics core

This project models the logic behind a browser dashboard that combines a
disaster-response coordinator with a clinical-trial matcher. The page shows
header metrics such as response time, resources deployed, match rate, match
time, active trials and coordination score. The project control buttons
refresh those metrics with random steps kept inside fixed bands, and the page
stores the two times as text with one decimal. From the stored values the page
derives:

- a predictive resource allocation;
- a trial-success prediction;
- three status badges.

A refresh also replans the route panel, which shows an ETA and a risk label.
The route does not read the stored values: without a clicked origin it is the
fixed route with a newly drawn distance.

It also keeps bounded lists: a live alert feed and a social feed (six entries
each), a one-minute window of alert timestamps, a notification list, and a
seven-point response chart.

Two versions of the page script are modelled:

- `static/script.js`, the extended dashboard;
- `script.js`, the original, shorter one. Its refresh steps clamp differently.
  The response time is clamped from below at 3.5. Within that bound it only
  falls. Resources are clamped from above at 95 with no lower clamp. Within
  that bound they only rise. Only its data simulation button refreshes all
  metrics.

The page reads its inputs from the DOM and from `Math.random()` and `Date.now()`.
In the model these become parameters:

- every `Math.random()` result is a `Draw`, a real in [0, 1);
- `Math.floor(Math.random() * k)` is `Pick(r, k)`;
- `Math.round(x)` is `floor(x + 0.5)`, evaluated exactly over the reals;
- writing a time with `toFixed(1)` and parsing it back is `ToFixed1`, the
  nearest tenth;
- each read of the clock is its own integer parameter.

Pure expressions and if-ladders are Dafny functions. Code that changes state is
a class with `seq` fields and methods, and each such method is tied by its
`ensures` to the pure functions. These are:

- the header metrics of each version;
- the feeds;
- the notification list;
- the two charts.

Code that computes step by step is a method with the same steps, proved equal
to a reference function:

- the allocation counting loop;
- the risk-score accumulation;
- the trimming `while` loop of the feeds.

Modules:

- `JsNumbers`: the JavaScript number primitives.
- `Allocation`, `Status`, `DigitalTwin`, `TrialOutcome`, `Route`, `Assistant`: the derived panels.
- `Intelligence`: the feeds and the alert window.
- `Notifications`, `Charts`: shared by both versions.
- `MetricSteps`: refresh steps shared by both versions.
- `LiveDashboard`, `LegacyDashboard`: the header metrics of each version.

## Model

| member | source | states |
|---|---|---|
| JsNumbers.Round | static/script.js:570-572 | `Math.round` lands within half a unit of its argument |
| JsNumbers.Pick | static/script.js:342 | `Math.floor(Math.random() * k)` is one of 0 .. k-1 |
| JsNumbers.RoundMonotone | static/script.js:722 | rounding preserves order |
| JsNumbers.RoundWhole | static/script.js:592 | a whole number rounds to itself |
| JsNumbers.RoundBetweenWhole | static/script.js:785-787 | a value between two whole numbers rounds to a value between them |
| JsNumbers.ToFixed1 | static/script.js:318 | a time written with one decimal and read back lies on the tenths grid, within 0.05 of the value |
| JsNumbers.ToFixed1OnTenths | static/script.js:282 | a value already on the tenths grid is stored unchanged |
| JsNumbers.ToFixed1Monotone | static/script.js:318 | one-decimal storage never reverses the order of two values |
| JsNumbers.ToFixed1Between | script.js:290-291 | a value between two grid values is stored between them |
| JsNumbers.OnTenthsShift | script.js:290-291 | moving a grid value by whole tenths stays on the grid |
| Allocation.UpdatePredictiveAllocation | static/script.js:555-580 | the counting loop yields the plan for the number of high and of medium entries; each entry counts at most once; every block recommends at least its base stock, has risk in [0,99], and deploys between 0 and the recommendation when the share is in [0,100] |
| Allocation.ShortageRisk | static/script.js:591-592 | the risk is at most 99, non-negative for a non-negative recommendation, and 0 whenever deployed covers the recommendation |
| Allocation.SetPredictiveBlock | static/script.js:582-594 | the block shows the recommended and deployed quantities with a risk of at most 99, non-negative for a non-negative recommendation, and 0 when the deployment covers the recommendation |
| Allocation.CountPartition | static/script.js:559-562 | every entry is counted under exactly one severity |
| Allocation.CountConcat | static/script.js:559-562 | counting is additive over concatenated lists |
| Allocation.LowIgnored | static/script.js:560-561 | a low-severity entry changes neither the high nor the medium count |
| Allocation.RecommendedMonotone | static/script.js:570-572 | more pressure never lowers a recommendation |
| Allocation.RecommendedGrowsWithEmergencies | static/script.js:564-572 | more high or medium emergencies never lower any recommendation |
| Allocation.RecommendedAtLeastBase | static/script.js:566-572 | with non-negative pressure, at least the base stock (6, 80, 4) is recommended |
| Allocation.DeployedWithinRecommended | static/script.js:574-579 | a deployed share in [0,100] deploys between 0 and the recommended quantity |
| Allocation.RiskNonIncreasingInDeployed | static/script.js:591-592 | deploying more never raises the shortage risk |
| Allocation.ShortfallIsVisible | static/script.js:591-592 | for recommendations up to 200 any shortfall shows a risk of at least 1 |
| Allocation.PlanSound | static/script.js:570-579 | all three blocks of any plan satisfy the block guarantees |
| Status.Worse | static/script.js:858-860 | the worse of two levels is one of them and ranks no higher than either |
| Status.ClassifyDisasterStatus | static/script.js:837-846 | the level is ok exactly when the ok thresholds hold and risk exactly when the warning thresholds fail, with the matching label |
| Status.ClassifyTrialStatus | static/script.js:848-856 | the level is ok exactly when the ok thresholds hold and risk exactly when the warning thresholds fail, with the matching label |
| Status.ClassifyOverallStatus | static/script.js:858-869 | the label matches the level; the result is risk exactly when either name ranks 0, and ok exactly when both names are "ok" |
| Status.HeaderStatusBadges | static/script.js:815-835 | the overall badge is the worse of the disaster and trial badges |
| Status.RankOfName | static/script.js:859 | each classifier level name ranks as ok 2, warning 1, risk 0 |
| Status.OverallIsWorse | static/script.js:858-869 | on classifier outputs the overall level is the minimum-rank level, with its label |
| Status.UnknownNameCountsAsWarning | static/script.js:860 | a level name outside ok/warning/risk ranks as warning, on either side |
| Status.OkThresholdsImplyWarning | static/script.js:837-856 | both ok ladders are stricter than their warning ladders |
| Status.DisasterMonotone | static/script.js:837-846 | a lower response time, more resources or better coordination never give a worse disaster level |
| Status.TrialMonotone | static/script.js:848-856 | a higher match rate or a shorter match time never give a worse trial level |
| DigitalTwin.RiskScore | static/script.js:763-771 | the step-by-step score equals the sum of age, comorbidity, genetics and vitals contributions, and the non-vitals part is in [0, 11.5] |
| DigitalTwin.BaseSurvival | static/script.js:774 | survival before jitter is at least 40 |
| DigitalTwin.BaseResponse | static/script.js:775 | response before jitter is at least 25 |
| DigitalTwin.BaseSideEffect | static/script.js:776 | side-effect risk before jitter is at most 95 |
| DigitalTwin.Jitter | static/script.js:780 | the jitter is in [-2, 2) |
| DigitalTwin.Displayed | static/script.js:781-787 | clamped and rounded, every shown value is in [0, 99] |
| DigitalTwin.RunDigitalTwinSimulation | static/script.js:763-787 | whatever the draws, the three outputs are in [0,99], survival is at least 38, response at least 23, side effects at most 97 |
| DigitalTwin.DisplayedAtLeast | static/script.js:781-785 | a value of at least a whole bound in [0,99] is shown as at least that bound |
| DigitalTwin.DisplayedAtMost | static/script.js:783-787 | a value of at most a whole bound in [0,99] is shown as at most that bound |
| DigitalTwin.BaseValuesFollowRisk | static/script.js:774-776 | a higher score never raises survival or response and never lowers side-effect risk |
| DigitalTwin.RiskScoreMonotone | static/script.js:763-771 | older age, extra comorbidities, riskier genetics or worse vitals never lower the score |
| DigitalTwin.SurvivalNonIncreasingInAge | static/script.js:763-785 | with the same draw, an older patient is never shown a higher survival |
| DigitalTwin.DisplayedMonotone | static/script.js:781-787 | clamping and rounding keep the order of two values |
| TrialOutcome.Completion | static/script.js:798 | completion is at most 99 |
| TrialOutcome.Dropout | static/script.js:799 | dropout is at least 5 |
| TrialOutcome.Adverse | static/script.js:800 | adverse-event risk is at least 8 |
| TrialOutcome.UpdateTrialSuccessPredictor | static/script.js:794-809 | completion at most 99, dropout at least 5, adverse at least 8 |
| TrialOutcome.MonotoneInMatchRate | static/script.js:798-800 | a higher match rate never lowers completion and never raises dropout or adverse risk |
| TrialOutcome.IndependentOfTrialCount | static/script.js:795 | the trial count read by the predictor does not affect its result |
| TrialOutcome.DropoutFloorExamples | static/script.js:799 | dropout is 70 at rate 0, 20 at rate 100 and the floor 5 at rate 130 |
| TrialOutcome.CompletionCapsAt116 | static/script.js:798 | completion is 99 exactly from a match rate of 116 on |
| Route.DefaultDistance | static/script.js:718 | the placeholder distance is in [7, 9) |
| Route.EtaMinutes | static/script.js:722 | the ETA is the whole number of minutes nearest to the distance over 0.6 km/min |
| Route.RiskOf | static/script.js:725 | an ETA of 14 minutes or less is Normal, longer is Elevated |
| Route.UpdateRoutePlan | static/script.js:688-731 | the ETA is the rounded distance over 0.6 km/min; Elevated exactly when the ETA exceeds 14; a three-point route from origin through their midpoint to hospital with the given distance when both are known, else the fixed four-point route with a distance in [7,9) |
| Route.ElevatedExactlyFrom87 | static/script.js:722-725 | a route is Elevated exactly when it is at least 8.7 km long |
| Route.EtaMonotone | static/script.js:722 | a longer route never has a shorter ETA |
| Route.DefaultRouteEta | static/script.js:716-724 | the fixed route takes 12 to 15 minutes and is Elevated exactly when the draw is at least 0.85 |
| Assistant.ToLower | static/script.js:443 | lower-casing keeps the length and maps every character |
| Assistant.SelectReply | static/script.js:442-459 | each reply is given exactly when its keyword group occurs in the lowered text and no earlier group does; the default reply exactly when no keyword occurs |
| Assistant.GetAssistantReply | static/script.js:442-459 | the reply text is the one chosen for the lower-cased question |
| Assistant.ToLowerIdempotent | static/script.js:443 | lower-casing twice equals lower-casing once |
| Assistant.CaseInsensitive | static/script.js:443 | the reply does not depend on letter case |
| Assistant.ToLowerConcat | static/script.js:443 | lower-casing distributes over concatenation |
| Assistant.IncludesInfix | static/script.js:445 | a word written inside a text is included in it |
| Assistant.KeywordSurvivesLowering | static/script.js:443-445 | a lower-case keyword written anywhere still occurs after lower-casing |
| Assistant.EmergencyWins | static/script.js:445-447 | "emergency" or "disaster" anywhere gives the emergency reply regardless of other keywords |
| Assistant.TrialWinsOverLaterGroups | static/script.js:448-450 | without an emergency keyword, "trial" or "patient" gives the trial reply regardless of later keywords |
| Assistant.UpperCaseKeywordRecognised | static/script.js:443-447 | "DISASTER" in capitals gives the emergency reply |
| Intelligence.KeepFirst | static/script.js:509-512 | the kept entries are the first min(length, n) entries, the whole list when it is short enough |
| Intelligence.Recent | static/script.js:517 | the filtered history is no longer than before and every kept timestamp is at or after the cutoff |
| Intelligence.FeedPush | static/script.js:508-512 | after a push the new item is first, the feed has min(old+1, 6) entries, and the rest is the old feed's prefix |
| Intelligence.TrimToLimit | static/script.js:510-512 | removing the last entry while there are more than the limit leaves exactly the first `limit` entries |
| Intelligence.RecentMembers | static/script.js:517 | a timestamp is kept exactly when it was present and is not older than the cutoff |
| Intelligence.RecentAppend | static/script.js:514-517 | filtering after an append equals filtering before it, plus the new timestamp if recent |
| Intelligence.AlertHistoryAfterPush | static/script.js:514-517 | the new history holds exactly the old-or-new timestamps in the window, the new one last when it is within the window |
| Intelligence.RealTimeFeed.constructor | static/script.js:465-466 | the alert history starts empty and the social count at 0; the feeds and the hotspot text start empty as well |
| Intelligence.RealTimeFeed.PushEmergencyAlert | static/script.js:495-526 | the live feed gets the alert in front, trimmed to six; the history is the filtered window; the rate is its length; the hotspot is the location; the social side is unchanged |
| Intelligence.RealTimeFeed.PushSocialSignal | static/script.js:528-549 | the social feed gets the post in front, trimmed to six; the social count rises by exactly one; the alert side is unchanged |
| Notifications.Shown | static/script.js:924-931 | the shown list is a prefix of the new entry followed by the old list, at most one longer |
| Notifications.ShownProperties | static/script.js:924-931 | the new entry is first; the list grows by at most one; only the tail entry can be dropped; a list within five stays within five |
| Notifications.OverfullListStaysOverfull | script.js:391-396 | a list already over five entries is not brought back within five |
| Notifications.SeededNotifications | static/script.js:886-891 | the page is seeded with four entries, within the limit |
| Notifications.NotificationPanel.InitialNotifications | static/script.js:885-899 | the panel holds the four seeded entries in order, within the limit |
| Notifications.NotificationPanel.ShowNotification | script.js:383-397 | the new "Just now" entry is first, the list is the shown list, and a list within five stays within five |
| Charts.PushShift | static/script.js:366-373 | a push-then-maybe-shift keeps the suffix of the pushed sequence, with the new value last |
| Charts.NewResponsePoint | static/script.js:366 | a new response point is in [3.8, 4.6) |
| Charts.VaryBar | static/script.js:379-380 | a bar ends in [75,99] and moves by -5 .. +4 when it was already in range |
| Charts.VaryBars | static/script.js:378-381 | every bar is varied with its own draw, and the length is kept |
| Charts.VaryBarsBounded | script.js:341-344 | after an update every bar is in [75,99], and a bar in range moves by at most five |
| Charts.WindowBounded | script.js:329-336 | the response window stays within seven points if it was, and keeps the last values in order |
| Charts.ResponseChart.constructor | static/script.js:22-25 | the chart starts with the seven response times 5.2, 4.8, 4.5, 4.2, 4.1, 4.3 and 4.0, labelled Mon .. Sun |
| Charts.ResponseChart.AddPoint | script.js:329-336 | data and labels are pushed and shifted together, the new point last, the length kept within seven if it was |
| Charts.TrialChart.constructor | static/script.js:62 | the trial chart starts with 92, 88, 95, 85, 90 |
| Charts.TrialChart.Vary | static/script.js:378-381 | every bar is replaced by its varied value, all in [75,99] |
| Charts.UpdateCharts | static/script.js:364-384 | one chart refresh updates both series as above |
| MetricSteps.NextMatchRate | script.js:251 | the match rate stays at most 99, rises by at most 2, and never falls when it was at most 99 |
| MetricSteps.NextMatchTime | static/script.js:281 | the match time stays at least 0.3, falls by less than 0.1, and never rises when it was at least 0.3 |
| MetricSteps.StoredMatchTime | static/script.js:280-282 | the stored match time is on the tenths grid and at least 0.3, and from a stored value of at least 0.3 it falls by at most 0.1 |
| MetricSteps.NextTrialCount | script.js:311-314 | for any current value the trial count ends in [35,50], and moves by at most one when already in range |
| MetricSteps.NextCoordination | script.js:317-320 | for any current value coordination ends in [80,99], and moves by at most two when already in range |
| LiveDashboard.NextResponseTime | static/script.js:314-318 | the response time ends in [3.2,5.0], moving by at most 0.2 when already in range |
| LiveDashboard.StoredResponseTime | static/script.js:314-318 | the stored response time is on the tenths grid and in [3.2,5.0], and from a stored value in range it moves by at most 0.2 |
| LiveDashboard.ResourceDelta | static/script.js:323 | the resource step is -4 .. 3 |
| LiveDashboard.NextResources | static/script.js:320-325 | resources end in [70,99], moving by -4 .. +3 when already in range |
| LiveDashboard.LiveMetrics.constructor | static/script.js:312-325 | the header holds the given starting values |
| LiveDashboard.LiveMetrics.UpdateResponseMetrics | static/script.js:312-331 | the stored response time and resources take their next values within their bands; nothing else changes |
| LiveDashboard.LiveMetrics.SimulatePatientMatching | static/script.js:273-283 | the match rate and the stored match time take their next values; nothing else changes |
| LiveDashboard.LiveMetrics.RefreshCounts | static/script.js:339-349 | trial count and coordination take their next values within their bands; nothing else changes |
| LiveDashboard.LiveMetrics.SimulateSystemData | static/script.js:334-361 | every metric takes its next stored value; chart data and labels are pushed and shifted together; the trial bars vary; the panels are the allocation, trial prediction, fixed-route plan and badges of the stored values |
| LiveDashboard.RefreshedAllocationSound | static/script.js:320-325 | after a refresh the resources value is a share in [0,100], so every allocation block deploys between 0 and its recommendation |
| LiveDashboard.RefreshedDisasterNeverRisk | static/script.js:334-361 | after a refresh the disaster badge is never risk, since the refreshed stored values meet the warning thresholds |
| LegacyDashboard.NextResponseTime | script.js:287-291 | the response time stays at least 3.5, falls by less than 0.3, and never rises when it was at least 3.5 |
| LegacyDashboard.StoredResponseTime | script.js:288-291 | the stored response time is on the tenths grid and at least 3.5, and from a stored value of at least 3.5 it falls by at most 0.3 |
| LegacyDashboard.NextResources | script.js:293-296 | resources stay at most 95, rise by at most 4, and never fall when they were at most 95 |
| LegacyDashboard.ResourcesAboveCapDrop | script.js:295 | a value above 95 is pulled down to 95 |
| LegacyDashboard.NoLowerClamp | script.js:295 | a negative value is not raised into the band |
| LegacyDashboard.LegacyMetrics.constructor | script.js:287-296 | the header holds the given starting values |
| LegacyDashboard.LegacyMetrics.UpdateResponseMetrics | script.js:287-302 | the stored response time and resources take their next values; response time at least 3.5 and falling by at most 0.3 from a stored value of at least 3.5; resources at most 95 and not falling when at most 95 |
| LegacyDashboard.LegacyMetrics.SimulatePatientMatching | script.js:248-259 | match rate at most 99 and at most 2 higher, stored match time at least 0.3; nothing else changes |
| LegacyDashboard.LegacyMetrics.RefreshCounts | script.js:309-320 | trial count ends in [35,50] and coordination in [80,99] for any current value; nothing else changes |
| LegacyDashboard.LegacyMetrics.SimulateSystemData | script.js:305-325 | every metric takes its next stored value; chart data and labels are pushed and shifted together; the trial bars vary |

## Left out

- DOM reads and writes, Chart.js and Leaflet calls, `innerHTML` templates, the
  element builders, resource-bar widths and the summary and hotspot texts beyond
  the hotspot location. These are presentation only.
- `setInterval` and `setTimeout` scheduling. The model takes one step at a time.
- `Math.random()` and `Date.now()` are parameters. `pushEmergencyAlert` reads the
  clock twice, once for the pushed timestamp and once for the cutoff, so it gets
  two parameters.
- Text parsing and the `|| default` fallbacks. The model takes typed values,
  and models the one-decimal storage of the two times with `ToFixed1`. In the
  source the fallback also replaces a genuine 0: a resources value of 0% is
  read as 80 at static/script.js:574, and an age of 0 as 45 at
  static/script.js:754. The model does not capture this.
- Floating point. The reals are exact. A sum that floating point would land
  just below a half is not modelled, under either `Math.round` or `toFixed`.
- The `if (!container) return` guards. The model assumes every element exists.
- The Haversine distance `estimateDistanceKm` (static/script.js:674-686) uses
  trigonometry. The origin route takes its distance as a parameter.
  `routeOriginLabel` only affects the summary text.
- `classifyOverallStatus` looks names up in an object literal, so an inherited
  property name such as `toString` would not fall back to rank 1. Level names
  are plain strings in the model, and every unknown name ranks 1.
- Assistant.ToLower: lower-cases only the ASCII letters A to Z. `toLowerCase`
  also maps other Unicode letters.
- `findMatchingTrials` and `simulateNewEmergency` only generate random display
  records. `app.py`, the Flask server and its chat proxy, is not part of this
  model.
- LiveDashboard.LiveMetrics.SimulateSystemData: `updateRoutePlan()` is called
  without an origin there, so the model always takes the fixed-route branch.
  The clicked-origin branch is modelled in `Route.UpdateRoutePlan`.
- The comment next to the resource step at static/script.js:323 says ±4%, but
  the step is -4 .. +3. The model follows the code.
- The severity of an emergency element is taken as a `Severity` value. The
  source finds it with a CSS selector.
- Intelligence.RealTimeFeed.constructor: the feeds and the hotspot text start
  empty in the model. Their initial contents come from the page's HTML, which
  is not part of this model.
- LegacyDashboard.LegacyMetrics.UpdateResponseMetrics: the response time is
  promised not to rise only from a value already on the tenths grid. A starting
  value such as 3.96 is stored as 4.0 even when the draw is 0. Every value the
  page has stored itself is on the grid.
