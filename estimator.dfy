/** The emission estimate of `calculateFootprint`: page size and traffic are
    turned into monthly data transfer, energy, monthly and annual CO2, the
    number of trees that would offset it, and a letter grade for the page
    weight. */
module Estimator {
  import opened Factors

  /** The five inputs of one estimate, as read from the form. */
  datatype Input = Input(
    pageSizeKB: real,
    monthlyVisitors: nat,
    pagesPerVisit: real,
    hosting: Hosting,
    region: Region)

  /** The performance grades, from best to worst. */
  datatype Rating = APlus | A | B | C | D | F

  /** The four figures shown to the user. */
  datatype Footprint = Footprint(
    monthlyCO2: real,
    annualCO2: real,
    trees: int,
    rating: Rating)

  /** What an estimate from form keys yields: the full figures, only the
      grade when the figures are undefined, or a failure. */
  datatype KeyedEstimate =
    | Estimated(footprint: Footprint)
    | NoFigures(rating: Rating)
    | Failed

  /** kg CO2 a tree absorbs in a year. */
  const TreeAbsorptionKg: real := 21.0

  /** Kilobytes to megabytes, 1 MB being 1000 KB. */
  function PageSizeMB(kb: real): (mb: real)
    ensures kb >= 0.0 ==> 0.0 <= mb <= kb
    ensures kb > 0.0 ==> 0.0 < mb < kb
  {
    kb / 1000.0
  }

  /** Gigabytes transferred per month, 1 GB being 1000 MB. */
  function MonthlyTransferGB(sizeMB: real, visitors: nat, pagesPerVisit: real): (gb: real)
  {
    (sizeMB * (visitors as real) * pagesPerVisit) / 1000.0
  }

  /** kWh used to serve `gb` gigabytes from region `r`. */
  function EnergyKWh(gb: real, r: Region): (kwh: real)
  {
    gb * EnergyFactor(r)
  }

  /** kg CO2 emitted for `kwh` kilowatt-hours under hosting `h` in region `r`. */
  function EmittedCO2(kwh: real, h: Hosting, r: Region): (kg: real)
  {
    kwh * CarbonIntensity(h, r)
  }

  /** The monthly CO2 of an input, through the whole conversion chain. */
  function MonthlyCO2(i: Input): (kg: real)
  {
    EmittedCO2(
      EnergyKWh(MonthlyTransferGB(PageSizeMB(i.pageSizeKB), i.monthlyVisitors, i.pagesPerVisit), i.region),
      i.hosting, i.region)
  }

  /** The smallest integer not below `x`. */
  function Ceil(x: real): (n: int)
    ensures x <= n as real < x + 1.0
  {
    -((-x).Floor)
  }

  /** Trees needed to absorb `annualKg` kg CO2 in a year: the least whole
      number of trees whose yearly absorption covers it. */
  function TreesNeeded(annualKg: real): (n: int)
    ensures TreeAbsorptionKg * (n as real) >= annualKg
    ensures TreeAbsorptionKg * ((n - 1) as real) < annualKg
    ensures annualKg >= 0.0 ==> n >= 0
    ensures annualKg > 0.0 ==> n >= 1
  {
    Ceil(annualKg / TreeAbsorptionKg)
  }

  /** Position of a grade, 0 for the best. */
  function Rank(r: Rating): (n: nat)
  {
    match r
    case APlus => 0
    case A => 1
    case B => 2
    case C => 3
    case D => 4
    case F => 5
  }

  /** The half-open interval of page sizes (MB) belonging to each grade; A+
      has no lower bound and F no upper bound. */
  predicate InBand(sizeMB: real, r: Rating)
  {
    match r
    case APlus => sizeMB < 0.5
    case A => 0.5 <= sizeMB < 1.0
    case B => 1.0 <= sizeMB < 2.0
    case C => 2.0 <= sizeMB < 3.0
    case D => 3.0 <= sizeMB < 5.0
    case F => 5.0 <= sizeMB
  }

  /** The grade ladder over the page size in MB; each bound is strict, so a
      page exactly on a bound gets the worse grade. */
  function RatingOf(sizeMB: real): (r: Rating)
    ensures InBand(sizeMB, r)
  {
    if sizeMB < 0.5 then APlus
    else if sizeMB < 1.0 then A
    else if sizeMB < 2.0 then B
    else if sizeMB < 3.0 then C
    else if sizeMB < 5.0 then D
    else F
  }

  /** The grade alone, as it begins its label. */
  function Grade(r: Rating): (g: string)
  {
    match r
    case APlus => "A+"
    case A => "A"
    case B => "B"
    case C => "C"
    case D => "D"
    case F => "F"
  }

  /** The text the page shows for a grade: the grade, then a word or two
      in parentheses. */
  function RatingLabel(r: Rating): (s: string)
    ensures Grade(r) + " (" <= s
    ensures s[|s| - 1] == ')'
  {
    match r
    case APlus => "A+ (Excellent)"
    case A => "A (Very Good)"
    case B => "B (Good)"
    case C => "C (Average)"
    case D => "D (Below Average)"
    case F => "F (Poor)"
  }

  /** The whole estimate of `calculateFootprint`. */
  function Estimate(i: Input): (out: Footprint)
    ensures out.annualCO2 == 12.0 * out.monthlyCO2
    ensures i.pageSizeKB >= 0.0 && i.pagesPerVisit >= 0.0 ==>
              out.monthlyCO2 >= 0.0 && out.trees >= 0
    ensures TreeAbsorptionKg * ((out.trees - 1) as real) < out.annualCO2 <= TreeAbsorptionKg * (out.trees as real)
  {
    MonthlyCO2Sign(i);
    var monthly := MonthlyCO2(i);
    var annual := monthly * 12.0;
    Footprint(monthly, annual, TreesNeeded(annual), RatingOf(PageSizeMB(i.pageSizeKB)))
  }

  /** The same estimate with region and hosting given by their form keys.
      A hosting key that names no table row and no inherited member fails
      outright, since indexing the missing row throws. A hosting key naming
      an inherited member, or a known hosting key with an unknown region key,
      leaves the figures undefined while the grade is still worked out. */
  function EstimateByKeys(pageSizeKB: real, monthlyVisitors: nat, pagesPerVisit: real,
                          hostingKey: string, regionKey: string): (out: KeyedEstimate)
    ensures out.Failed? <==> (forall h: Hosting :: HostingKey(h) != hostingKey) && hostingKey !in InheritedMembers
    ensures out.NoFigures? <==> hostingKey in InheritedMembers ||
                                ((exists h: Hosting :: HostingKey(h) == hostingKey) &&
                                 (forall r: Region :: RegionKey(r) != regionKey))
    ensures out.NoFigures? ==> out.rating == RatingOf(PageSizeMB(pageSizeKB))
    ensures forall h: Hosting, r: Region :: HostingKey(h) == hostingKey && RegionKey(r) == regionKey ==>
              out == Estimated(Estimate(Input(pageSizeKB, monthlyVisitors, pagesPerVisit, h, r)))
  {
    match LookupHosting(hostingKey)
    case None =>
      if hostingKey in InheritedMembers then NoFigures(RatingOf(PageSizeMB(pageSizeKB))) else Failed
    case Some(h) =>
      match LookupRegion(regionKey)
      case None => NoFigures(RatingOf(PageSizeMB(pageSizeKB)))
      case Some(r) => Estimated(Estimate(Input(pageSizeKB, monthlyVisitors, pagesPerVisit, h, r)))
  }

  // ---------------------------------------------------------------------
  // Properties of the estimate

  /** The transfer is never negative for a non-negative page size and
      pages per visit, and positive once there is a visitor. */
  lemma TransferSign(sizeMB: real, visitors: nat, pagesPerVisit: real)
    ensures sizeMB >= 0.0 && pagesPerVisit >= 0.0 ==> MonthlyTransferGB(sizeMB, visitors, pagesPerVisit) >= 0.0
    ensures sizeMB > 0.0 && pagesPerVisit > 0.0 && visitors > 0 ==> MonthlyTransferGB(sizeMB, visitors, pagesPerVisit) > 0.0
  {
  }

  /** Every region uses less than 1 kWh per GB, so the energy lies between
      nothing and the transfer figure, strictly when anything is sent. */
  lemma EnergyBounds(gb: real, r: Region)
    ensures gb >= 0.0 ==> 0.0 <= EnergyKWh(gb, r) <= gb
    ensures gb > 0.0 ==> 0.0 < EnergyKWh(gb, r) < gb
  {
  }

  /** Every intensity is below 1 kg per kWh, so the CO2 lies between nothing
      and the energy figure, strictly when any energy is used. */
  lemma EmissionBounds(kwh: real, h: Hosting, r: Region)
    ensures kwh >= 0.0 ==> 0.0 <= EmittedCO2(kwh, h, r) <= kwh
    ensures kwh > 0.0 ==> 0.0 < EmittedCO2(kwh, h, r) < kwh
  {
  }

  /** Monthly CO2 is never negative for a non-negative page size and pages
      per visit, and positive once anything is transferred. */
  lemma MonthlyCO2Sign(i: Input)
    ensures i.pageSizeKB >= 0.0 && i.pagesPerVisit >= 0.0 ==> MonthlyCO2(i) >= 0.0
    ensures i.pageSizeKB > 0.0 && i.pagesPerVisit > 0.0 && i.monthlyVisitors > 0 ==> MonthlyCO2(i) > 0.0
  {
    var mb := PageSizeMB(i.pageSizeKB);
    TransferSign(mb, i.monthlyVisitors, i.pagesPerVisit);
    var gb := MonthlyTransferGB(mb, i.monthlyVisitors, i.pagesPerVisit);
    EnergyBounds(gb, i.region);
    EmissionBounds(EnergyKWh(gb, i.region), i.hosting, i.region);
  }

  /** The conversion chain as one closed formula over the two tables. */
  lemma MonthlyFormula(i: Input)
    ensures MonthlyCO2(i) ==
              (i.pageSizeKB / 1000.0) * (i.monthlyVisitors as real) * i.pagesPerVisit / 1000.0
              * EnergyFactor(i.region) * CarbonIntensity(i.hosting, i.region)
    ensures Estimate(i).monthlyCO2 == MonthlyCO2(i)
    ensures Estimate(i).annualCO2 == 12.0 * MonthlyCO2(i)
    ensures Estimate(i).rating == RatingOf(i.pageSizeKB / 1000.0)
  {
  }

  /** The conversion chain grows strictly with the visitor count when every
      other factor is positive. */
  lemma ChainStrictInVisitors(mb: real, v: real, w: real, p: real, e: real, c: real)
    requires mb > 0.0 && p > 0.0 && e > 0.0 && c > 0.0 && v < w
    ensures ((mb * v * p) / 1000.0 * e) * c < ((mb * w * p) / 1000.0 * e) * c
  {
  }

  /** With a positive page size and pages per visit and everything else
      fixed, more monthly visitors give strictly more monthly CO2. */
  lemma MoreVisitorsMoreCO2(i: Input, more: nat)
    requires i.pageSizeKB > 0.0 && i.pagesPerVisit > 0.0
    requires i.monthlyVisitors < more
    ensures MonthlyCO2(i) < MonthlyCO2(i.(monthlyVisitors := more))
    ensures Estimate(i).annualCO2 < Estimate(i.(monthlyVisitors := more)).annualCO2
  {
    ChainStrictInVisitors(PageSizeMB(i.pageSizeKB), i.monthlyVisitors as real, more as real,
                          i.pagesPerVisit, EnergyFactor(i.region), CarbonIntensity(i.hosting, i.region));
  }

  /** Green hosting never emits more than standard hosting for the same
      traffic and region, and emits strictly less once anything is sent. */
  lemma GreenNoMoreThanStandard(i: Input)
    requires i.pageSizeKB >= 0.0 && i.pagesPerVisit >= 0.0
    ensures MonthlyCO2(i.(hosting := Green)) <= MonthlyCO2(i.(hosting := Standard))
    ensures i.pageSizeKB > 0.0 && i.pagesPerVisit > 0.0 && i.monthlyVisitors > 0 ==>
              MonthlyCO2(i.(hosting := Green)) < MonthlyCO2(i.(hosting := Standard))
  {
  }

  /** The tree count is the least integer whose absorption covers the annual
      CO2: no smaller count suffices. */
  lemma TreesNeededLeast(annualKg: real, n: int)
    requires TreeAbsorptionKg * (n as real) >= annualKg
    ensures TreesNeeded(annualKg) <= n
  {
  }

  /** A larger annual figure never needs fewer trees. */
  lemma TreesNeededMonotone(x: real, y: real)
    requires x <= y
    ensures TreesNeeded(x) <= TreesNeeded(y)
  {
  }

  /** Three sample tree counts: 21 kg needs one tree, 21.01 kg two, 0 kg none. */
  lemma TreesNeededExamples()
    ensures TreesNeeded(21.0) == 1
    ensures TreesNeeded(21.01) == 2
    ensures TreesNeeded(0.0) == 0
  {
  }

  // ---------------------------------------------------------------------
  // Properties of the grade ladder

  /** The ladder gives a grade exactly when the size lies in its band, so the
      bands cover every size and no two overlap. */
  lemma RatingIsBand(sizeMB: real, r: Rating)
    ensures RatingOf(sizeMB) == r <==> InBand(sizeMB, r)
  {
  }

  /** A larger page never gets a better grade. */
  lemma RatingMonotone(x: real, y: real)
    requires x <= y
    ensures Rank(RatingOf(x)) <= Rank(RatingOf(y))
  {
  }

  /** Sizes on and next to each bound. */
  lemma RatingBoundaries()
    ensures RatingOf(0.4999) == APlus
    ensures RatingOf(0.5) == A
    ensures RatingOf(0.999) == A
    ensures RatingOf(1.0) == B
    ensures RatingOf(1.999) == B
    ensures RatingOf(2.0) == C
    ensures RatingOf(3.0) == D
    ensures RatingOf(4.999) == D
    ensures RatingOf(5.0) == F
  {
  }

  /** Different grades are shown with different texts. */
  lemma RatingLabelInjective(r: Rating, s: Rating)
    ensures RatingLabel(r) == RatingLabel(s) <==> r == s
  {
  }

  /** 500 KB, 10000 visitors, 3 pages per visit, standard hosting in Europe:
      15 GB, 9.75 kWh, 2.73 kg a month, 32.76 kg a year, 2 trees, grade A. */
  lemma WorkedExample()
    ensures MonthlyTransferGB(PageSizeMB(500.0), 10000, 3.0) == 15.0
    ensures EnergyKWh(15.0, Europe) == 9.75
    ensures Estimate(Input(500.0, 10000, 3.0, Standard, Europe)) == Footprint(2.73, 32.76, 2, A)
  {
  }
}
