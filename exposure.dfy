/** Safe-exposure estimate for one dose-rate (microsieverts per hour), against
    the annual public and occupational limits, assuming exposure of 8 hours a
    day on 250 working days a year. */
module Exposure {

  /** Annual limits in microsieverts. */
  const PublicLimit: real := 1000.0
  const WorkerLimit: real := 20000.0
  /** Exposure assumptions. */
  const HoursPerDay: real := 8.0
  const DaysPerYear: real := 250.0

  /** Either the distinguished "No radiation detected" status, or the five
      figures of an estimate. Only the underlying numbers are kept; their
      rounding into text is presentation. */
  datatype Estimate =
    | NoRadiation
    | Safety(daysToPublicLimit: real, daysToWorkerLimit: real, annualDose: real,
             percentOfPublicLimit: real, percentOfWorkerLimit: real)

  /** Dose accumulated in a year of 8-hour days at the given rate. */
  function AnnualDose(dose: real): (d: real)
    ensures d == 2000.0 * dose
    ensures d > 0.0 <==> dose > 0.0
  {
    dose * HoursPerDay * DaysPerYear
  }

  /** The exposure estimate. A rate that is not positive yields the status
      variant; otherwise exposure for `daysToPublicLimit` 8-hour days reaches
      the public limit exactly, and likewise for the worker limit. */
  function ExposureSafety(dose: real): (e: Estimate)
    ensures e.NoRadiation? <==> dose <= 0.0
    ensures e.Safety? ==>
      && e.daysToPublicLimit > 0.0 && e.daysToWorkerLimit > 0.0
      && e.daysToPublicLimit * HoursPerDay * dose == PublicLimit
      && e.daysToWorkerLimit * HoursPerDay * dose == WorkerLimit
      && e.annualDose == dose * 2000.0
      && e.percentOfPublicLimit * PublicLimit == e.annualDose * 100.0
      && e.percentOfWorkerLimit * WorkerLimit == e.annualDose * 100.0
  {
    if dose <= 0.0 then NoRadiation
    else
      var hoursToPublicLimit := PublicLimit / dose;
      var hoursToWorkerLimit := WorkerLimit / dose;
      var annual := AnnualDose(dose);
      Safety(hoursToPublicLimit / HoursPerDay, hoursToWorkerLimit / HoursPerDay, annual,
             annual / PublicLimit * 100.0, annual / WorkerLimit * 100.0)
  }

  /** The percentage of the public limit is 20 times that of the worker limit,
      and the worker limit takes 20 times as many days to reach. */
  lemma LimitRatios(dose: real)
    requires dose > 0.0
    ensures ExposureSafety(dose).percentOfPublicLimit == 20.0 * ExposureSafety(dose).percentOfWorkerLimit
    ensures ExposureSafety(dose).daysToWorkerLimit == 20.0 * ExposureSafety(dose).daysToPublicLimit
  {
  }

  /** A higher dose-rate never leaves more days before a limit is reached, and
      never a smaller share of a limit. */
  lemma ExposureSafetyMonotone(a: real, b: real)
    requires 0.0 < a <= b
    ensures ExposureSafety(b).daysToPublicLimit <= ExposureSafety(a).daysToPublicLimit
    ensures ExposureSafety(b).daysToWorkerLimit <= ExposureSafety(a).daysToWorkerLimit
    ensures ExposureSafety(a).percentOfPublicLimit <= ExposureSafety(b).percentOfPublicLimit
    ensures ExposureSafety(a).percentOfWorkerLimit <= ExposureSafety(b).percentOfWorkerLimit
  {
  }
}
