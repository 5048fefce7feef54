/** The survey data set: point readings from the detector and the summary
    statistics the report uses (mean, maximum and minimum dose-rate). */
module Survey {

  /** One measurement: position and dose-rate in microsieverts per hour. */
  datatype Reading = Reading(longitude: real, latitude: real, dose: real)

  /** The readings of a survey, in the order they were recorded. */
  datatype RadiationData = RadiationData(points: seq<Reading>)

  /** The built-in sample survey: one elevated reading and three zero readings. */
  function SampleData(): (d: RadiationData)
    ensures |d.points| == 4
  {
    RadiationData([
      Reading(90.35718591116404, 23.837775061102857, 0.4385),
      Reading(90.35789165161599, 23.83827828945288, 0.0),
      Reading(90.35706162131505, 23.838201481146786, 0.0),
      Reading(90.35770007023059, 23.837719225607806, 0.0)
    ])
  }

  /** The dose-rate column. */
  function Doses(rs: seq<Reading>): (ds: seq<real>)
    ensures |ds| == |rs|
    ensures forall i :: 0 <= i < |rs| ==> ds[i] == rs[i].dose
  {
    seq(|rs|, i requires 0 <= i < |rs| => rs[i].dose)
  }

  function Sum(s: seq<real>): real
  {
    if s == [] then 0.0 else Sum(s[..|s| - 1]) + s[|s| - 1]
  }

  /** The largest reading. */
  function Max(s: seq<real>): (m: real)
    requires |s| > 0
    ensures m in s
    ensures forall i :: 0 <= i < |s| ==> s[i] <= m
  {
    if |s| == 1 then s[0]
    else
      var m' := Max(s[..|s| - 1]);
      if s[|s| - 1] > m' then s[|s| - 1] else m'
  }

  /** The smallest reading. */
  function Min(s: seq<real>): (m: real)
    requires |s| > 0
    ensures m in s
    ensures forall i :: 0 <= i < |s| ==> m <= s[i]
  {
    if |s| == 1 then s[0]
    else
      var m' := Min(s[..|s| - 1]);
      if s[|s| - 1] < m' then s[|s| - 1] else m'
  }

  /** A sum of readings that are all at most `b` is at most |s| times `b`. */
  lemma {:induction false} SumAtMost(s: seq<real>, b: real)
    requires forall i :: 0 <= i < |s| ==> s[i] <= b
    ensures Sum(s) <= |s| as real * b
  {
    if s != [] {
      SumAtMost(s[..|s| - 1], b);
    }
  }

  /** A sum of readings that are all at least `b` is at least |s| times `b`. */
  lemma {:induction false} SumAtLeast(s: seq<real>, b: real)
    requires forall i :: 0 <= i < |s| ==> b <= s[i]
    ensures |s| as real * b <= Sum(s)
  {
    if s != [] {
      SumAtLeast(s[..|s| - 1], b);
    }
  }

  /** Dividing an upper bound `x <= n * hi` by a positive `n`. */
  lemma QuotientAtMost(x: real, n: real, hi: real)
    requires n > 0.0 && x <= n * hi
    ensures x / n <= hi
  {
  }

  /** Dividing a lower bound `n * lo <= x` by a positive `n`. */
  lemma QuotientAtLeast(x: real, n: real, lo: real)
    requires n > 0.0 && n * lo <= x
    ensures lo <= x / n
  {
  }

  /** Dividing `x` by a positive `n` and multiplying back gives `x`. */
  lemma QuotientTimes(x: real, n: real)
    requires n > 0.0
    ensures x / n * n == x
  {
  }

  /** The arithmetic mean of a non-empty list of readings: their total divided
      by their number. It lies between the smallest and the largest reading. */
  function Mean(s: seq<real>): (m: real)
    requires |s| > 0
    ensures m * (|s| as real) == Sum(s)
    ensures Min(s) <= m <= Max(s)
  {
    var n, total, hi, lo := |s| as real, Sum(s), Max(s), Min(s);
    SumAtMost(s, hi);
    SumAtLeast(s, lo);
    QuotientAtMost(total, n, hi);
    QuotientAtLeast(total, n, lo);
    QuotientTimes(total, n);
    total / n
  }

  /** The statistics of a non-empty survey. */
  datatype Stats = Stats(mean: real, max: real, min: real)

  /** Mean, maximum and minimum of the dose-rate column. The maximum and the
      minimum are readings of the survey, every reading lies between them, and
      so does the mean. */
  function GetStats(data: RadiationData): (st: Stats)
    requires |data.points| > 0
    ensures st.max in Doses(data.points) && st.min in Doses(data.points)
    ensures forall i :: 0 <= i < |data.points| ==> st.min <= data.points[i].dose <= st.max
    ensures st.min <= st.mean <= st.max
    ensures st.mean * (|data.points| as real) == Sum(Doses(data.points))
  {
    var ds := Doses(data.points);
    Stats(Mean(ds), Max(ds), Min(ds))
  }

  /** Statistics of the built-in sample. */
  lemma SampleStats()
    ensures GetStats(SampleData()) == Stats(0.109625, 0.4385, 0.0)
  {
    var ds := Doses(SampleData().points);
    var s1, s2, s3 := [0.4385], [0.4385, 0.0], [0.4385, 0.0, 0.0];
    assert ds == s3 + [0.0];
    assert ds[..3] == s3 && s3[..2] == s2 && s2[..1] == s1 && s1[..0] == [];
    assert Sum(ds) == 0.4385;
    assert Max(ds) == 0.4385;
    assert Min(ds) == 0.0;
  }
}
