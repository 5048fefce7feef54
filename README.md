# Radiation risk engine — Dafny model

This project models the risk-classification and reporting engine of the
radiation mapping tool in `radiation_map_light.py`: the GM-tube survey data
with its summary statistics, the per-reading risk classifier, the safe-exposure
calculator, and the survey-wide risk report (level tally, hotspot list,
weighted risk index, overall level and recommendations). Dose-rates are in
microsieverts per hour and are modelled as `real`.

Modules, one per component of the engine:

- `Risk` (`risk.dfy`): the five risk levels, the first-match threshold chain
  (0.15, 0.3, 0.5, 1.0) with each level's colour, action and description.
- `Exposure` (`exposure.dfy`): the estimate against the public limit
  (1000 μSv/year) and the worker limit (20000 μSv/year) for 8-hour days and
  250 days a year, with the distinguished "No radiation detected" variant.
- `Survey` (`survey.dfy`): readings (longitude, latitude, dose-rate), the
  built-in sample survey, and mean, maximum and minimum of the dose column.
- `Report` (`report.dfy`): the tally over the five fixed keys, the hotspots,
  the risk index `min(100, max*70 + mean*30)`, the survey-wide level with its
  own cut points (30, 50, 70, 90), the recommendation lists, and the report
  record. The two loops of the source (the statistics panel's tally and the
  report's tally-and-hotspot pass) are methods proved against the
  specification functions `TallyOf` and `Hotspots`.

The per-reading level and the survey-wide level use the same five-valued
`Level` type, because the source uses the same five names for both, but they
come from different functions (`AssessRisk` on a dose-rate, `OverallRisk` on
the index) and sit in different fields of the report.

Two behaviours of the code a reader might not expect:

- A negative dose-rate is not rejected: the classifier puts it in SAFE and the
  exposure calculator returns the "No radiation detected" variant
  (`AssessRiskBoundaries` shows the first).
- The limits and the 8-hour, 250-day assumption are fixed constants, and the
  report's safety analysis repeats them as literals.

## Model

| member | source | states |
|---|---|---|
| Risk.Describe | radiation_map_light.py:50-84 | each level carries one fixed colour, action and description |
| Risk.LevelOf | radiation_map_light.py:50-84 | the first-match chain partitions the reals: below 0.15 SAFE, [0.15, 0.3) LOW, [0.3, 0.5) MODERATE, [0.5, 1.0) HIGH, 1.0 and above SEVERE |
| Risk.AssessRisk | radiation_map_light.py:45-84 | the level partitions the reals: below 0.15 SAFE, [0.15, 0.3) LOW, [0.3, 0.5) MODERATE, [0.5, 1.0) HIGH, 1.0 and above SEVERE; the metadata is that level's |
| Risk.AssessRiskMonotone | radiation_map_light.py:50-84 | a larger dose-rate never gets a lower-ranked level |
| Risk.AssessRiskBoundaries | radiation_map_light.py:50-84 | each boundary belongs to the upper level; 0.14999, 0 and a negative reading are SAFE |
| Risk.AssessmentDeterminedByLevel | radiation_map_light.py:50-84 | two readings with the same level get the same colour, action and description |
| Exposure.AnnualDose | radiation_map_light.py:107-108 | a year of 8-hour days on 250 days accumulates 2000 times the hourly rate, and is positive exactly when the rate is |
| Exposure.ExposureSafety | radiation_map_light.py:86-116 | "No radiation detected" exactly when the dose-rate is at most 0; otherwise the day counts are positive and 8-hour days times dose-rate reach each limit exactly, the annual dose is rate·8·250, and each percentage is the annual dose over its limit |
| Exposure.LimitRatios | radiation_map_light.py:96-115 | percent of the public limit is 20 times percent of the worker limit; the worker limit takes 20 times as many days |
| Exposure.ExposureSafetyMonotone | radiation_map_light.py:100-115 | a higher positive dose-rate gives no more days to either limit and no smaller percentage of either |
| Survey.SampleData | radiation_map_light.py:14-23 | the built-in survey has four readings |
| Survey.Max | radiation_map_light.py:32 | the maximum is one of the readings and no reading exceeds it |
| Survey.Min | radiation_map_light.py:33 | the minimum is one of the readings and no reading is below it |
| Survey.SumAtMost | radiation_map_light.py:30 | readings all at most b sum to at most count·b |
| Survey.SumAtLeast | radiation_map_light.py:30 | readings all at least b sum to at least count·b |
| Survey.Mean | radiation_map_light.py:30 | mean times count is the total, and min ≤ mean ≤ max |
| Survey.GetStats | radiation_map_light.py:25-36 | for a non-empty survey, max and min are readings, every reading lies between them, min ≤ mean ≤ max, and mean·count is the total |
| Survey.SampleStats | radiation_map_light.py:17-35 | the sample's statistics are mean 0.109625, max 0.4385, min 0 |
| Report.Count | radiation_map_light.py:461-463 | the number of readings at one level never exceeds the number of readings |
| Report.TallyOf | radiation_map_light.py:458-463 | the tally always has exactly the five level keys |
| Report.TallyOfEmpty | radiation_map_light.py:458 | counting starts with all five keys at 0 |
| Report.TallyOfStep | radiation_map_light.py:461-463 | one more reading increments exactly its own level's entry by one |
| Report.CountTotal | radiation_map_light.py:461-463 | the five per-level counts add up to the number of readings |
| Report.TallyTotal | radiation_map_light.py:458-463 | the tally's counts sum to the number of readings |
| Report.TallyRiskLevels | radiation_map_light.py:338-342 | the statistics panel's loop over the dose column yields exactly the tally of the readings' levels |
| Report.Hotspots | radiation_map_light.py:459-470 | the hotspot list has at most one entry per reading |
| Report.HotspotsStep | radiation_map_light.py:461-470 | scanning one more reading appends it, numbered idx+1 with its dose-rate and level, exactly when its level is MODERATE, HIGH or SEVERE |
| Report.HotspotsSound | radiation_map_light.py:459-470 | each hotspot is numbered idx+1 of its reading, carries its dose-rate and its level, which is MODERATE, HIGH or SEVERE; point numbers strictly increase (original order) |
| Report.HotspotsComplete | radiation_map_light.py:461-470 | every reading at MODERATE, HIGH or SEVERE is in the hotspot list under its 1-based number |
| Report.HotspotsCount | radiation_map_light.py:461-470 | the number of hotspots is the MODERATE, HIGH and SEVERE counts added |
| Report.HotspotExposureDefined | radiation_map_light.py:552-557 | every hotspot's exposure estimate is the full variant, so the report's lookup of the public and worker figures always finds them |
| Report.RiskIndex | radiation_map_light.py:472-475 | the index is at most 100 and at most max·70 + mean·30, is one of the two, and equals the weighted sum whenever that is at most 100 |
| Report.RiskIndexMonotone | radiation_map_light.py:475 | the index never decreases as the maximum or the mean grows |
| Report.RiskIndexInRange | radiation_map_light.py:472-475 | with no negative reading the report's index lies in [0, 100] |
| Report.OverallRisk | radiation_map_light.py:477-508 | index below 30 SAFE, [30, 50) LOW, [50, 70) MODERATE, [70, 90) HIGH, 90 and above SEVERE |
| Report.OverallRiskMonotone | radiation_map_light.py:478-508 | a higher index never gives a lower-ranked survey level |
| Report.Recommendations | radiation_map_light.py:478-514 | SAFE, LOW and MODERATE carry 3 recommendations, HIGH and SEVERE 4, and exactly the SEVERE list begins with "IMMEDIATE AREA RESTRICTION" |
| Report.WithinLimits | radiation_map_light.py:574-576 | the conclusion says all readings are within the public and occupational limits exactly for a SAFE or LOW survey |
| Report.ReportOf | radiation_map_light.py:453-576 | the report of a non-empty survey: its statistics are the survey's, its counts are the tally of the readings' levels (five keys summing to the number of readings), its hotspots are the hotspot list of the readings (as many as the MODERATE/HIGH/SEVERE counts, each the numbered reading at a hotspot level), its index is `RiskIndex` of the survey's maximum and mean (at most 100) and decides the level and recommendations, the reassuring conclusion comes only for SAFE or LOW, and the highest reading's annual dose at 8 hours a day for 250 days is given with its percentage of each limit |
| Report.SafetyAnalysisMatchesExposure | radiation_map_light.py:544-546 | for a positive maximum, the report's annual dose and percentages for the highest reading equal that reading's exposure estimate |
| Report.ScanStep | radiation_map_light.py:461-470 | one iteration of the report's loop turns the tally and hotspot list of the first i readings into those of the first i+1 |
| Report.AnalyzeReadings | radiation_map_light.py:457-470 | the report's loop yields exactly the tally and the hotspot list of the readings |
| Report.GenerateRiskReport | radiation_map_light.py:453-546 | the generator produces exactly the report above |
| Report.SampleTally | radiation_map_light.py:17-21 | the sample has three SAFE readings and one MODERATE |
| Report.SampleHotspots | radiation_map_light.py:17-21 | the sample's only hotspot is point 1, MODERATE at 0.4385 |
| Report.SampleReport | radiation_map_light.py:17-21 | the sample's index is 33.98375, its overall level LOW with the LOW recommendations, and its conclusion is the reassuring one |

## Left out

- Map construction with folium, tile layers, minimap, measure control, the heatmap layer and its gradient, marker clusters, popups, risk-zone circles and their radius table, the statistics and title HTML panels and the colour legend (radiation_map_light.py:120-447): presentation built on libraries that are not part of this model. The per-reading data those layers use is what `AssessRisk` and `ExposureSafety` compute.
- `get_heatmap_data` (radiation_map_light.py:38-42): a reshaping of the readings for the heatmap only.
- Text layout and number formatting of the exposure strings and of the report (radiation_map_light.py:111-115, 517-582): the model keeps the underlying numbers and the choice of conclusion sentence, not their rendering.
- The standard deviation and median statistics (radiation_map_light.py:31, 34): the report never uses them, and the standard deviation needs a square root.
- The exposure estimate of each hotspot (radiation_map_light.py:554-557) is computed only for the report text and is not a field of `RiskReport`: it is `ExposureSafety(h.radiation)`, and `HotspotExposureDefined` shows it is always the full variant.
- Floating-point rounding: dose-rates and every derived figure are exact reals.
- Empty surveys: `GetStats`, `ReportOf` and `GenerateRiskReport` require at least one reading. The source has no guard there and pandas would produce NaN statistics, which reals cannot represent. Read from the code: `min(100, NaN)` yields 100, so the source's report on an empty survey would come out SEVERE with index 100 and "IMMEDIATE AREA RESTRICTION", with its dose figures printed as nan.
- The module-level script that builds and saves the map and downloads the file (radiation_map_light.py:586-604): input and output.
- The legacy forwarding method `generate_complete_map` (radiation_map_light.py:439-441): it only calls the map generator.
