/** The risk report over a whole survey: the tally of per-reading levels, the
    hotspot list, the weighted risk index, the survey-wide level with its
    recommendations, and the annual-dose figures for the highest reading. Only
    the values the report is built from are modelled, not its text layout. */
module Report {
  import opened Risk
  import opened Exposure
  import opened Survey

  /** The five keys of the tally, all of which are always present. */
  const AllLevels: set<Level> := {Safe, Low, Moderate, High, Severe}

  /** A tally of readings per level. */
  type Tally = map<Level, nat>

  /** The sum of the five counts of a tally. */
  function Total(t: Tally): nat
    requires AllLevels <= t.Keys
  {
    t[Safe] + t[Low] + t[Moderate] + t[High] + t[Severe]
  }

  /** The tally before any reading is counted: every key present, at 0. */
  const EmptyTally: Tally := map[Safe := 0, Low := 0, Moderate := 0, High := 0, Severe := 0]

  // ---------------------------------------------------------------------------
  // Tally of levels

  /** How many of the readings are classified at level `l`. */
  function Count(doses: seq<real>, l: Level): (c: nat)
    ensures c <= |doses|
  {
    if doses == [] then 0
    else Count(doses[..|doses| - 1], l) + (if LevelOf(doses[|doses| - 1]) == l then 1 else 0)
  }

  /** The tally of a list of readings: one key per level, holding its count. */
  function TallyOf(doses: seq<real>): (t: Tally)
    ensures t.Keys == AllLevels
  {
    map l | l in AllLevels :: Count(doses, l)
  }

  /** Counting starts from the all-zero tally. */
  lemma TallyOfEmpty()
    ensures TallyOf([]) == EmptyTally
  {
  }

  /** Counting one more reading increments exactly the key of its level, by one. */
  lemma TallyOfStep(doses: seq<real>, i: nat)
    requires i < |doses|
    ensures TallyOf(doses[..i + 1]) == TallyOf(doses[..i])[LevelOf(doses[i]) := TallyOf(doses[..i])[LevelOf(doses[i])] + 1]
  {
    assert doses[..i + 1][..i] == doses[..i];
  }

  /** The five counts add up to the number of readings. */
  lemma {:induction false} CountTotal(doses: seq<real>)
    ensures Count(doses, Safe) + Count(doses, Low) + Count(doses, Moderate)
          + Count(doses, High) + Count(doses, Severe) == |doses|
  {
    if doses != [] {
      CountTotal(doses[..|doses| - 1]);
    }
  }

  /** The tally accounts for every reading exactly once. */
  lemma TallyTotal(doses: seq<real>)
    ensures Total(TallyOf(doses)) == |doses|
  {
    CountTotal(doses);
  }

  /** The tally loop of the statistics panel: start from the all-zero tally
      and increment the entry of each reading's level. */
  method TallyRiskLevels(doses: seq<real>) returns (counts: Tally)
    ensures counts == TallyOf(doses)
  {
    counts := EmptyTally;
    var i := 0;
    while i < |doses|
      invariant 0 <= i <= |doses|
      invariant counts == TallyOf(doses[..i])
    {
      var risk := AssessRisk(doses[i]);
      counts := counts[risk.level := counts[risk.level] + 1];
      assert counts == TallyOf(doses[..i + 1]) by {
        TallyOfStep(doses, i);
      }
      i := i + 1;
    }
    assert doses[..i] == doses;
  }

  // ---------------------------------------------------------------------------
  // Hotspots

  /** A reading worth reporting: its 1-based point number, dose-rate and level. */
  datatype Hotspot = Hotspot(point: nat, radiation: real, risk: Level)

  /** The levels reported as hotspots. */
  predicate IsHotspotLevel(l: Level)
  {
    l == Moderate || l == High || l == Severe
  }

  /** The hotspots of a list of readings, in reading order. */
  function Hotspots(doses: seq<real>): (h: seq<Hotspot>)
    ensures |h| <= |doses|
  {
    if doses == [] then []
    else
      var d := doses[|doses| - 1];
      Hotspots(doses[..|doses| - 1])
      + (if IsHotspotLevel(LevelOf(d)) then [Hotspot(|doses|, d, LevelOf(d))] else [])
  }

  /** Scanning one more reading adds it, numbered by its position, exactly
      when its level is a hotspot level. */
  lemma HotspotsStep(doses: seq<real>, i: nat)
    requires i < |doses|
    ensures Hotspots(doses[..i + 1]) == Hotspots(doses[..i])
      + (if IsHotspotLevel(LevelOf(doses[i])) then [Hotspot(i + 1, doses[i], LevelOf(doses[i]))] else [])
  {
    assert doses[..i + 1][..i] == doses[..i];
  }

  /** Every hotspot names a reading by its 1-based number, carries that
      reading's dose-rate and level, and that level is a hotspot level;
      point numbers strictly increase along the list. */
  lemma {:induction false} HotspotsSound(doses: seq<real>)
    ensures forall k :: 0 <= k < |Hotspots(doses)| ==>
      var h := Hotspots(doses)[k];
      && 1 <= h.point <= |doses|
      && h.radiation == doses[h.point - 1]
      && h.risk == LevelOf(h.radiation)
      && IsHotspotLevel(h.risk)
    ensures forall j, k :: 0 <= j < k < |Hotspots(doses)| ==>
      Hotspots(doses)[j].point < Hotspots(doses)[k].point
  {
    if doses != [] {
      var init := doses[..|doses| - 1];
      HotspotsSound(init);
      forall k | 0 <= k < |Hotspots(init)|
        ensures doses[Hotspots(init)[k].point - 1] == init[Hotspots(init)[k].point - 1]
      {
      }
    }
  }

  /** Every reading at a hotspot level appears in the hotspot list under its
      1-based number. */
  lemma {:induction false} HotspotsComplete(doses: seq<real>, i: nat)
    requires i < |doses| && IsHotspotLevel(LevelOf(doses[i]))
    ensures exists k :: 0 <= k < |Hotspots(doses)| && Hotspots(doses)[k] == Hotspot(i + 1, doses[i], LevelOf(doses[i]))
  {
    var init := doses[..|doses| - 1];
    if i < |doses| - 1 {
      HotspotsComplete(init, i);
      var k :| 0 <= k < |Hotspots(init)| && Hotspots(init)[k] == Hotspot(i + 1, init[i], LevelOf(init[i]));
      assert Hotspots(doses)[k] == Hotspots(init)[k];
    } else {
      assert Hotspots(doses)[|Hotspots(doses)| - 1] == Hotspot(i + 1, doses[i], LevelOf(doses[i]));
    }
  }

  /** There are as many hotspots as readings classified Moderate, High or Severe. */
  lemma {:induction false} HotspotsCount(doses: seq<real>)
    ensures |Hotspots(doses)| == Count(doses, Moderate) + Count(doses, High) + Count(doses, Severe)
  {
    if doses != [] {
      HotspotsCount(doses[..|doses| - 1]);
    }
  }

  /** Every hotspot has a positive dose-rate, so its exposure estimate is the
      full variant and never the "No radiation detected" status. */
  lemma HotspotExposureDefined(doses: seq<real>)
    ensures forall k :: 0 <= k < |Hotspots(doses)| ==> ExposureSafety(Hotspots(doses)[k].radiation).Safety?
  {
  }

  // ---------------------------------------------------------------------------
  // Risk index and survey-wide level

  /** Weights of the maximum and of the mean reading in the index. */
  const MaxWeight: real := 70.0
  const MeanWeight: real := 30.0

  /** The risk index: the weighted sum of the maximum and the mean reading,
      capped at 100. */
  function RiskIndex(maxReading: real, meanReading: real): (r: real)
    ensures r <= 100.0
    ensures r <= maxReading * MaxWeight + meanReading * MeanWeight
    ensures r == 100.0 || r == maxReading * MaxWeight + meanReading * MeanWeight
    ensures maxReading * MaxWeight + meanReading * MeanWeight <= 100.0 ==>
      r == maxReading * MaxWeight + meanReading * MeanWeight
  {
    var weighted := maxReading * MaxWeight + meanReading * MeanWeight;
    if weighted < 100.0 then weighted else 100.0
  }

  /** The index never decreases when the maximum or the mean reading grows. */
  lemma RiskIndexMonotone(max1: real, mean1: real, max2: real, mean2: real)
    requires max1 <= max2 && mean1 <= mean2
    ensures RiskIndex(max1, mean1) <= RiskIndex(max2, mean2)
  {
  }

  /** The survey-wide level, chosen from the index with its own cut points
      30, 50, 70 and 90 (first match, each boundary in the upper band). */
  function OverallRisk(index: real): (l: Level)
    ensures l == Safe <==> index < 30.0
    ensures l == Low <==> 30.0 <= index < 50.0
    ensures l == Moderate <==> 50.0 <= index < 70.0
    ensures l == High <==> 70.0 <= index < 90.0
    ensures l == Severe <==> 90.0 <= index
  {
    if index < 30.0 then Safe
    else if index < 50.0 then Low
    else if index < 70.0 then Moderate
    else if index < 90.0 then High
    else Severe
  }

  /** A higher index never gives a lower survey-wide level. */
  lemma OverallRiskMonotone(a: real, b: real)
    requires a <= b
    ensures Rank(OverallRisk(a)) <= Rank(OverallRisk(b))
  {
  }

  /** The fixed, ordered recommendations for each survey-wide level: three for
      the three lower levels, four for High and Severe, and the Severe list
      opens with the area restriction. */
  function Recommendations(l: Level): (r: seq<string>)
    ensures |r| == if Rank(l) <= 2 then 3 else 4
    ensures l == Severe <==> r[0] == "IMMEDIATE AREA RESTRICTION"
  {
    match l
    case Safe => ["Continue routine monitoring", "Maintain baseline records", "No restrictions needed"]
    case Low => ["Monitor monthly", "Investigate minor elevations", "Inform local authorities"]
    case Moderate => ["Increase monitoring to weekly", "Restrict prolonged access to elevated areas",
                      "Investigate potential sources"]
    case High => ["Restrict area access", "Notify radiation safety officer", "Begin source investigation",
                  "Implement protective measures"]
    case Severe => ["IMMEDIATE AREA RESTRICTION", "Contact nuclear regulatory body", "Deploy emergency response",
                    "Evacuate non-essential personnel"]
  }

  /** Whether the conclusion states that all readings are within the public
      and occupational limits: only for a Safe or Low survey. */
  predicate WithinLimits(overall: Level): (b: bool)
    ensures b <==> Rank(overall) <= 1
  {
    overall == Safe || overall == Low
  }

  // ---------------------------------------------------------------------------
  // The report

  /** The values of the report. `maxAnnualDose` and the two percentages are
      the safety-analysis figures for the highest reading. */
  datatype RiskReport = RiskReport(
    dataPoints: nat,
    stats: Stats,
    counts: Tally,
    hotspots: seq<Hotspot>,
    index: real,
    overall: Level,
    recommendations: seq<string>,
    maxAnnualDose: real,
    maxPercentOfPublicLimit: real,
    maxPercentOfWorkerLimit: real,
    withinLimits: bool)

  /** The report of a non-empty survey. The tally covers every reading once,
      the hotspots are the readings at a hotspot level, the index is at most
      100 and decides the survey-wide level, and the highest reading's annual
      dose uses the same 8-hour, 250-day year as the exposure estimate. */
  function ReportOf(data: RadiationData): (r: RiskReport)
    requires |data.points| > 0
    ensures r.dataPoints == |data.points|
    ensures r.counts.Keys == AllLevels && Total(r.counts) == |data.points|
    ensures |r.hotspots| == r.counts[Moderate] + r.counts[High] + r.counts[Severe]
    ensures forall k :: 0 <= k < |r.hotspots| ==>
      var h := r.hotspots[k];
      1 <= h.point <= |data.points| && h.radiation == data.points[h.point - 1].dose
      && h.risk == LevelOf(h.radiation) && IsHotspotLevel(h.risk)
    ensures r.index <= 100.0
    ensures r.overall == OverallRisk(r.index) && r.recommendations == Recommendations(r.overall)
    ensures r.withinLimits <==> Rank(r.overall) <= 1
    ensures r.stats == GetStats(data)
    ensures r.counts == TallyOf(Doses(data.points))
    ensures r.hotspots == Hotspots(Doses(data.points))
    ensures r.index == RiskIndex(r.stats.max, r.stats.mean)
    ensures r.maxAnnualDose == AnnualDose(r.stats.max)
    ensures r.maxPercentOfPublicLimit * PublicLimit == r.maxAnnualDose * 100.0
    ensures r.maxPercentOfWorkerLimit * WorkerLimit == r.maxAnnualDose * 100.0
  {
    var doses := Doses(data.points);
    var stats := GetStats(data);
    var index := RiskIndex(stats.max, stats.mean);
    var overall := OverallRisk(index);
    var annual := AnnualDose(stats.max);
    TallyTotal(doses);
    HotspotsCount(doses);
    HotspotsSound(doses);
    RiskReport(|data.points|, stats, TallyOf(doses), Hotspots(doses), index, overall,
               Recommendations(overall), annual, annual / PublicLimit * 100.0,
               annual / WorkerLimit * 100.0, WithinLimits(overall))
  }

  /** With no negative readings the index is at least 0, so it lies in [0, 100]. */
  lemma RiskIndexInRange(data: RadiationData)
    requires |data.points| > 0
    requires forall i :: 0 <= i < |data.points| ==> data.points[i].dose >= 0.0
    ensures 0.0 <= ReportOf(data).index <= 100.0
  {
  }

  /** The safety analysis of the highest reading uses the same figures as
      that reading's exposure estimate, whenever it is positive. */
  lemma SafetyAnalysisMatchesExposure(data: RadiationData)
    requires |data.points| > 0
    requires GetStats(data).max > 0.0
    ensures var r, e := ReportOf(data), ExposureSafety(GetStats(data).max);
      && r.maxAnnualDose == e.annualDose
      && r.maxPercentOfPublicLimit == e.percentOfPublicLimit
      && r.maxPercentOfWorkerLimit == e.percentOfWorkerLimit
  {
  }

  /** One iteration of the report generator's loop: counting reading `i` and
      appending it when it is a hotspot extends the results for the first `i`
      readings to the results for the first `i + 1`. */
  lemma ScanStep(doses: seq<real>, i: nat, level: Level, counts: Tally, hs: seq<Hotspot>)
    requires i < |doses| && level == LevelOf(doses[i])
    requires counts == TallyOf(doses[..i]) && hs == Hotspots(doses[..i])
    ensures counts[level := counts[level] + 1] == TallyOf(doses[..i + 1])
    ensures IsHotspotLevel(level) ==> hs + [Hotspot(i + 1, doses[i], level)] == Hotspots(doses[..i + 1])
    ensures !IsHotspotLevel(level) ==> hs == Hotspots(doses[..i + 1])
  {
    TallyOfStep(doses, i);
    HotspotsStep(doses, i);
  }

  /** The loop of the report generator: one pass over the readings that
      tallies each level and collects the hotspots with 1-based point numbers. */
  method AnalyzeReadings(doses: seq<real>) returns (riskCounts: Tally, hotspots: seq<Hotspot>)
    ensures riskCounts == TallyOf(doses)
    ensures hotspots == Hotspots(doses)
  {
    riskCounts := EmptyTally;
    hotspots := [];
    var idx := 0;
    while idx < |doses|
      invariant 0 <= idx <= |doses|
      invariant riskCounts == TallyOf(doses[..idx])
      invariant hotspots == Hotspots(doses[..idx])
    {
      var radiation := doses[idx];
      var level := AssessRisk(radiation).level;
      ScanStep(doses, idx, level, riskCounts, hotspots);
      riskCounts := riskCounts[level := riskCounts[level] + 1];
      if IsHotspotLevel(level) {
        hotspots := hotspots + [Hotspot(idx + 1, radiation, level)];
      }
      idx := idx + 1;
    }
    assert doses[..idx] == doses;
  }

  /** The report generator: the tally and hotspots from one pass over the
      readings, then the index, the survey-wide level, the recommendations and
      the safety-analysis figures for the highest reading. */
  method GenerateRiskReport(data: RadiationData) returns (report: RiskReport)
    requires |data.points| > 0
    ensures report == ReportOf(data)
  {
    var stats := GetStats(data);
    var riskCounts, hotspots := AnalyzeReadings(Doses(data.points));
    var maxReading, meanReading := stats.max, stats.mean;
    var riskIndex := RiskIndex(maxReading, meanReading);
    var overallRisk := OverallRisk(riskIndex);
    var recommendations := Recommendations(overallRisk);
    var annual := maxReading * 8.0 * 250.0;
    report := RiskReport(|data.points|, stats, riskCounts, hotspots, riskIndex, overallRisk,
                         recommendations, annual, annual / 1000.0 * 100.0, annual / 20000.0 * 100.0,
                         WithinLimits(overallRisk));
  }

  /** The sample's per-level counts: three Safe readings and one Moderate. */
  lemma SampleTally()
    ensures TallyOf(Doses(SampleData().points)) == map[Safe := 3, Low := 0, Moderate := 1, High := 0, Severe := 0]
  {
    var ds := Doses(SampleData().points);
    var s1, s2, s3 := [0.4385], [0.4385, 0.0], [0.4385, 0.0, 0.0];
    assert ds == s3 + [0.0];
    assert ds[..3] == s3 && s3[..2] == s2 && s2[..1] == s1 && s1[..0] == [];
    assert LevelOf(0.4385) == Moderate && LevelOf(0.0) == Safe;
  }

  /** The sample's only hotspot is point 1. */
  lemma SampleHotspots()
    ensures Hotspots(Doses(SampleData().points)) == [Hotspot(1, 0.4385, Moderate)]
  {
    var ds := Doses(SampleData().points);
    var s1, s2, s3 := [0.4385], [0.4385, 0.0], [0.4385, 0.0, 0.0];
    assert ds == s3 + [0.0];
    assert ds[..3] == s3 && s3[..2] == s2 && s2[..1] == s1 && s1[..0] == [];
    assert LevelOf(0.4385) == Moderate && LevelOf(0.0) == Safe;
  }

  /** The report of the built-in sample: point 1 is Moderate and the other
      three Safe, point 1 is the only hotspot, and the index
      0.4385 * 70 + 0.109625 * 30 = 33.98375 makes the survey Low. */
  lemma SampleReport()
    ensures var r := ReportOf(SampleData());
      && r.counts == map[Safe := 3, Low := 0, Moderate := 1, High := 0, Severe := 0]
      && r.hotspots == [Hotspot(1, 0.4385, Moderate)]
      && r.index == 33.98375
      && r.overall == Low
      && r.recommendations == ["Monitor monthly", "Investigate minor elevations", "Inform local authorities"]
      && r.withinLimits
  {
    SampleStats();
    SampleTally();
    SampleHotspots();
  }
}
