/** The lead scoring engine (lib/lead-scoring.ts): a pure map from a lead to a
    rating in [1, 10], with its per-component breakdown, a five-band category
    and advisory suggestions. Scores, weights and contributions are exact
    reals. */
module Scoring {
  import opened Util
  import opened LeadTypes

  /** Score given to an industry, business type or state its table lacks. */
  const DefaultScore: real := 5.0

  const IndustryTable: map<string, real> := map[
    "Technology" := 9.5, "Healthcare" := 9.0, "Finance" := 8.5,
    "Professional Services" := 8.0, "Manufacturing" := 7.5, "Real Estate" := 7.0,
    "Education" := 6.5, "Retail" := 6.0, "Food & Beverage" := 5.5,
    "Health & Fitness" := 5.0, "Design" := 7.5, "Construction" := 6.5,
    "Automotive" := 6.0, "Entertainment" := 4.5, "Energy" := 8.0]

  const BusinessTypeTable: map<string, real> := map[
    "B2B SaaS" := 9.5, "B2B Services" := 9.0, "B2C Retail" := 6.0,
    "E-commerce" := 7.5, "Professional Services" := 8.5, "Healthcare Services" := 8.0,
    "Financial Services" := 8.5, "Manufacturing" := 7.0, "Construction" := 6.5,
    "Real Estate" := 7.0, "Education" := 6.5, "Non-profit" := 4.0]

  const LocationTable: map<string, real> := map[
    "CA" := 9.0, "NY" := 8.5, "TX" := 8.0, "FL" := 7.5, "WA" := 8.5,
    "MA" := 8.0, "IL" := 7.5, "OR" := 7.0, "CO" := 7.0, "NC" := 6.5]

  /** The employee-count and revenue tables the engine declares next to the
      others; the staircases below are written out by hand instead of reading
      them, and the lemmas at the end of the module show that they agree. */
  const EmployeeCountTable: map<int, real> := map[
    1 := 4.0, 10 := 6.0, 25 := 7.5, 50 := 8.5, 100 := 9.0, 250 := 9.5, 500 := 8.0]

  const RevenueTable: map<real, real> := map[
    500000.0 := 3.0, 1000000.0 := 5.0, 2500000.0 := 6.5, 5000000.0 := 8.0,
    10000000.0 := 9.0, 25000000.0 := 9.5, 50000000.0 := 8.5]

  /** The six component weights. */
  datatype Weights = Weights(
    industry: real, businessType: real, size: real,
    revenue: real, location: real, dataQuality: real)

  const EngineWeights: Weights := Weights(0.25, 0.2, 0.15, 0.2, 0.1, 0.1)

  /** The weights form a convex combination: none negative, total exactly one. */
  lemma WeightsSumToOne()
    ensures var w := EngineWeights;
      && w.industry >= 0.0 && w.businessType >= 0.0 && w.size >= 0.0
      && w.revenue >= 0.0 && w.location >= 0.0 && w.dataQuality >= 0.0
      && w.industry + w.businessType + w.size + w.revenue + w.location + w.dataQuality == 1.0
  {
  }

  /** `table[key] || 5.0`: a missing key, and equally a stored 0, falls back
      to the default. */
  function TableScore<K>(table: map<K, real>, key: K): (r: real)
    ensures key !in table ==> r == DefaultScore
    ensures r != 0.0
    ensures key in table && table[key] != 0.0 ==> r == table[key]
    ensures key in table && table[key] == 0.0 ==> r == DefaultScore
  {
    if key in table && table[key] != 0.0 then table[key] else DefaultScore
  }

  function IndustryScore(lead: Lead): (r: real)
    ensures lead.industry !in IndustryTable ==> r == DefaultScore
    ensures lead.industry in IndustryTable ==> r == IndustryTable[lead.industry]
    ensures 4.5 <= r <= 9.5
  {
    TableScore(IndustryTable, lead.industry)
  }

  function BusinessTypeScore(lead: Lead): (r: real)
    ensures lead.business_type !in BusinessTypeTable ==> r == DefaultScore
    ensures lead.business_type in BusinessTypeTable ==> r == BusinessTypeTable[lead.business_type]
    ensures 4.0 <= r <= 9.5
  {
    TableScore(BusinessTypeTable, lead.business_type)
  }

  function LocationScore(lead: Lead): (r: real)
    ensures lead.state !in LocationTable ==> r == DefaultScore
    ensures lead.state in LocationTable ==> r == LocationTable[lead.state]
    ensures 5.0 <= r <= 9.0
  {
    TableScore(LocationTable, lead.state)
  }

  /** The employee-count staircase; the top bucket deliberately scores below
      the one under it. */
  function EmployeeCountScore(employeeCount: int): (r: real)
    ensures 4.0 <= r <= 9.5
  {
    if employeeCount >= 500 then 8.0
    else if employeeCount >= 250 then 9.5
    else if employeeCount >= 100 then 9.0
    else if employeeCount >= 50 then 8.5
    else if employeeCount >= 25 then 7.5
    else if employeeCount >= 10 then 6.0
    else 4.0
  }

  /** The annual-revenue staircase; again the top bucket drops. */
  function RevenueScore(revenue: real): (r: real)
    ensures 3.0 <= r <= 9.5
  {
    if revenue >= 50000000.0 then 8.5
    else if revenue >= 25000000.0 then 9.5
    else if revenue >= 10000000.0 then 9.0
    else if revenue >= 5000000.0 then 8.0
    else if revenue >= 2500000.0 then 6.5
    else if revenue >= 1000000.0 then 5.0
    else 3.0
  }

  /** The seven checks of the data-quality checklist. */
  predicate HasWebsite(lead: Lead) { lead.website != "" && IsSubstring("http", lead.website) }
  predicate HasEmail(lead: Lead) { lead.email != "" && IsSubstring("@", lead.email) }
  predicate HasPhone(lead: Lead) { lead.phone != "" && |lead.phone| >= 10 }
  predicate HasContactName(lead: Lead) { lead.contact_name != "" && |lead.contact_name| > 0 }
  predicate HasAddress(lead: Lead) { lead.address != "" && |lead.address| > 0 }
  predicate HasZip(lead: Lead) { lead.zip_code != "" && |lead.zip_code| >= 5 }
  predicate HasDescription(lead: Lead) { lead.description != "" && |lead.description| > 20 }

  /** Points earned on the checklist. */
  function DataQualityPoints(lead: Lead): (p: nat)
    ensures p <= 10
    ensures p == 10 <==>
      HasWebsite(lead) && HasEmail(lead) && HasPhone(lead) && HasContactName(lead)
      && HasAddress(lead) && HasZip(lead) && HasDescription(lead)
    ensures p == 0 <==>
      !HasWebsite(lead) && !HasEmail(lead) && !HasPhone(lead) && !HasContactName(lead)
      && !HasAddress(lead) && !HasZip(lead) && !HasDescription(lead)
  {
    (if HasWebsite(lead) then 2 else 0)
    + (if HasEmail(lead) then 2 else 0)
    + (if HasPhone(lead) then 2 else 0)
    + (if HasContactName(lead) then 1 else 0)
    + (if HasAddress(lead) then 1 else 0)
    + (if HasZip(lead) then 1 else 0)
    + (if HasDescription(lead) then 1 else 0)
  }

  /** The seven checks, in checklist order, and the points each is worth. */
  function Checks(lead: Lead): seq<bool> {
    [HasWebsite(lead), HasEmail(lead), HasPhone(lead), HasContactName(lead),
     HasAddress(lead), HasZip(lead), HasDescription(lead)]
  }

  const CheckPoints: seq<nat> := [2, 2, 2, 1, 1, 1, 1]

  /** Passing check `k` is worth exactly its points: two leads that differ
      only in that check, which `a` passes and `b` fails, differ by that many
      points. With the all-fail case this pins every lead's points. */
  lemma DataQualityMarginal(a: Lead, b: Lead, k: nat)
    requires k < 7
    requires Checks(a)[k] && !Checks(b)[k]
    requires forall j :: 0 <= j < 7 && j != k ==> Checks(a)[j] == Checks(b)[j]
    ensures DataQualityPoints(a) == DataQualityPoints(b) + CheckPoints[k]
  {
    var ca, cb := Checks(a), Checks(b);
    assert ca[0] == cb[0] || k == 0;
    assert ca[1] == cb[1] || k == 1;
    assert ca[2] == cb[2] || k == 2;
    assert ca[3] == cb[3] || k == 3;
    assert ca[4] == cb[4] || k == 4;
    assert ca[5] == cb[5] || k == 5;
    assert ca[6] == cb[6] || k == 6;
  }

  /** `calculateDataQualityScore`: points earned over points possible, times 10.
      Points possible always add up to 10, so the score is the points earned. */
  function DataQualityScore(lead: Lead): (r: real)
    ensures r == DataQualityPoints(lead) as real
    ensures 0.0 <= r <= 10.0
  {
    var score := DataQualityPoints(lead);
    var maxScore := 2 + 5 + 2 + 1;
    (score as real / maxScore as real) * 10.0
  }

  /** The running total of `calculateLeadScore` before it is clamped. */
  function WeightedSum(lead: Lead): (s: real)
  {
    var w := EngineWeights;
    var s0 := 0.0;
    var s1 := s0 + IndustryScore(lead) * w.industry;
    var s2 := s1 + BusinessTypeScore(lead) * w.businessType;
    var s3 := s2 + EmployeeCountScore(lead.employee_count) * w.size;
    var s4 := s3 + RevenueScore(lead.annual_revenue) * w.revenue;
    var s5 := s4 + LocationScore(lead) * w.location;
    s5 + DataQualityScore(lead) * w.dataQuality
  }

  /** `Math.min(10, Math.max(1, score))`. */
  function Clamp(x: real): (r: real)
    ensures 1.0 <= r <= 10.0
    ensures 1.0 <= x <= 10.0 ==> r == x
    ensures x < 1.0 ==> r == 1.0
    ensures x > 10.0 ==> r == 10.0
  {
    if 10.0 < (if 1.0 < x then x else 1.0) then 10.0 else if 1.0 < x then x else 1.0
  }

  /** `calculateLeadScore`: always a rating in [1, 10]. */
  function CalculateLeadScore(lead: Lead): (r: real)
    ensures 1.0 <= r <= 10.0
  {
    Clamp(WeightedSum(lead))
  }

  /** Every component already lies inside its own range, so the unclamped sum
      lies in [3.625, 9.5] and the clamp never changes the result. */
  lemma ClampNeverBinds(lead: Lead)
    ensures 3.625 <= WeightedSum(lead) <= 9.5
    ensures CalculateLeadScore(lead) == WeightedSum(lead)
  {
  }

  /** One row of `getScoreBreakdown`. */
  datatype Component = Component(score: real, weight: real, contribution: real)

  datatype ScoreBreakdown = ScoreBreakdown(
    industry: Component, businessType: Component, size: Component,
    revenue: Component, location: Component, dataQuality: Component)
  {
    function Total(): real {
      industry.contribution + businessType.contribution + size.contribution
      + revenue.contribution + location.contribution + dataQuality.contribution
    }
  }

  function Weighted(score: real, weight: real): Component {
    Component(score, weight, score * weight)
  }

  /** `getScoreBreakdown`. */
  function GetScoreBreakdown(lead: Lead): (b: ScoreBreakdown)
  {
    var w := EngineWeights;
    ScoreBreakdown(
      Weighted(IndustryScore(lead), w.industry),
      Weighted(BusinessTypeScore(lead), w.businessType),
      Weighted(EmployeeCountScore(lead.employee_count), w.size),
      Weighted(RevenueScore(lead.annual_revenue), w.revenue),
      Weighted(LocationScore(lead), w.location),
      Weighted(DataQualityScore(lead), w.dataQuality))
  }

  /** The breakdown explains the rating: each named component carries its own
      factor's score and weight, each contribution is its score times its
      weight, and the contributions add up to the unclamped sum whose clamp is
      the rating. */
  lemma BreakdownConsistent(lead: Lead)
    ensures var b := GetScoreBreakdown(lead);
      && b.industry.score == IndustryScore(lead) && b.industry.weight == 0.25
      && b.businessType.score == BusinessTypeScore(lead) && b.businessType.weight == 0.2
      && b.size.score == EmployeeCountScore(lead.employee_count) && b.size.weight == 0.15
      && b.revenue.score == RevenueScore(lead.annual_revenue) && b.revenue.weight == 0.2
      && b.location.score == LocationScore(lead) && b.location.weight == 0.1
      && b.dataQuality.score == DataQualityScore(lead) && b.dataQuality.weight == 0.1
      && b.industry.contribution == b.industry.score * b.industry.weight
      && b.businessType.contribution == b.businessType.score * b.businessType.weight
      && b.size.contribution == b.size.score * b.size.weight
      && b.revenue.contribution == b.revenue.score * b.revenue.weight
      && b.location.contribution == b.location.score * b.location.weight
      && b.dataQuality.contribution == b.dataQuality.score * b.dataQuality.weight
      && b.industry.weight + b.businessType.weight + b.size.weight
         + b.revenue.weight + b.location.weight + b.dataQuality.weight == 1.0
      && b.Total() == WeightedSum(lead)
      && CalculateLeadScore(lead) == Clamp(b.Total())
  {
  }

  /** `getScoreCategory`'s result. */
  datatype Category = Category(category: string, color: string, description: string)

  const HotLead := Category("Hot Lead", "text-red-600", "High-priority prospect with excellent fit")
  const WarmLead := Category("Warm Lead", "text-orange-600", "Good prospect worth pursuing")
  const QualifiedLead := Category("Qualified Lead", "text-yellow-600", "Decent prospect with some potential")
  const ColdLead := Category("Cold Lead", "text-blue-600", "Lower priority prospect")
  const PoorFit := Category("Poor Fit", "text-gray-600", "Not a good match for your product")

  /** Bands from best (0) to worst (4). */
  function BandRank(c: Category): nat {
    if c == HotLead then 0
    else if c == WarmLead then 1
    else if c == QualifiedLead then 2
    else if c == ColdLead then 3
    else 4
  }

  /** `getScoreCategory`: five bands with inclusive lower bounds 8.5, 7.0, 5.5
      and 4.0. */
  function GetScoreCategory(score: real): (c: Category)
    ensures c == HotLead <==> score >= 8.5
    ensures c == WarmLead <==> 7.0 <= score < 8.5
    ensures c == QualifiedLead <==> 5.5 <= score < 7.0
    ensures c == ColdLead <==> 4.0 <= score < 5.5
    ensures c == PoorFit <==> score < 4.0
  {
    if score >= 8.5 then HotLead
    else if score >= 7.0 then WarmLead
    else if score >= 5.5 then QualifiedLead
    else if score >= 4.0 then ColdLead
    else PoorFit
  }

  /** A higher score never lands in a worse band. */
  lemma CategoryMonotone(x: real, y: real)
    requires x <= y
    ensures BandRank(GetScoreCategory(y)) <= BandRank(GetScoreCategory(x))
  {
  }

  const ImproveDataQuality := "Improve data quality by verifying contact information"
  const CheckIndustryFit := "Consider if this industry aligns with your target market"
  const CompanyTooSmall := "Company size may be too small for your solution"
  const LimitedBudget := "Revenue range may indicate limited budget"
  const WellQualified := "This is a well-qualified lead - prioritize outreach"

  /** The four advisory messages, in the order the engine checks them. */
  const Advisories: seq<string> := [ImproveDataQuality, CheckIndustryFit, CompanyTooSmall, LimitedBudget]

  /** `suggestImprovements`: one advisory per component below its floor, in
      checking order, or else the single positive message. */
  function SuggestImprovements(lead: Lead): (r: seq<string>)
    ensures 1 <= |r| <= 4
    ensures ImproveDataQuality in r <==> DataQualityScore(lead) < 7.0
    ensures CheckIndustryFit in r <==> IndustryScore(lead) < 6.0
    ensures CompanyTooSmall in r <==> EmployeeCountScore(lead.employee_count) < 6.0
    ensures LimitedBudget in r <==> RevenueScore(lead.annual_revenue) < 6.0
    ensures r == [WellQualified] <==>
      DataQualityScore(lead) >= 7.0 && IndustryScore(lead) >= 6.0
      && EmployeeCountScore(lead.employee_count) >= 6.0 && RevenueScore(lead.annual_revenue) >= 6.0
    ensures r == [WellQualified] || IsSubsequence(r, Advisories)
  {
    var b := GetScoreBreakdown(lead);
    Advise(b.dataQuality.score, b.industry.score, b.size.score, b.revenue.score)
  }

  /** The advice for four component scores: one advisory per score below its
      floor, in checking order, or else the single positive message. */
  function Advise(quality: real, industry: real, size: real, revenue: real): (r: seq<string>)
    ensures 1 <= |r| <= 4
    ensures ImproveDataQuality in r <==> quality < 7.0
    ensures CheckIndustryFit in r <==> industry < 6.0
    ensures CompanyTooSmall in r <==> size < 6.0
    ensures LimitedBudget in r <==> revenue < 6.0
    ensures r == [WellQualified] <==> quality >= 7.0 && industry >= 6.0 && size >= 6.0 && revenue >= 6.0
    ensures r == [WellQualified] || IsSubsequence(r, Advisories)
  {
    var s1 := if quality < 7.0 then [ImproveDataQuality] else [];
    var s2 := s1 + if industry < 6.0 then [CheckIndustryFit] else [];
    var s3 := s2 + if size < 6.0 then [CompanyTooSmall] else [];
    var s4 := s3 + if revenue < 6.0 then [LimitedBudget] else [];
    assert IsSubsequence(s4, Advisories) by { SuggestionsInOrder(s1, s2, s3, s4); }
    if |s4| == 0 then [WellQualified] else s4
  }

  /** Helper for `SuggestImprovements`: appending the four optional advisories
      in checking order yields a subsequence of `Advisories`. */
  lemma SuggestionsInOrder(s1: seq<string>, s2: seq<string>, s3: seq<string>, s4: seq<string>)
    requires s1 == [] || s1 == [ImproveDataQuality]
    requires s2 == s1 || s2 == s1 + [CheckIndustryFit]
    requires s3 == s2 || s3 == s2 + [CompanyTooSmall]
    requires s4 == s3 || s4 == s3 + [LimitedBudget]
    ensures IsSubsequence(s4, Advisories)
  {
    var a := Advisories;
    var t4: seq<string> := if s4 == s3 then [] else [LimitedBudget];
    var t3 := (if s3 == s2 then [] else [CompanyTooSmall]) + t4;
    var t2 := (if s2 == s1 then [] else [CheckIndustryFit]) + t3;
    assert s1 + t2 == s4;
    assert a == [ImproveDataQuality] + ([CheckIndustryFit] + ([CompanyTooSmall] + [LimitedBudget]));
    assert t3 == t4 || t3 == [CompanyTooSmall] + t4;
    assert t2 == t3 || t2 == [CheckIndustryFit] + t3;
    assert s4 == t2 || s4 == [ImproveDataQuality] + t2;
    SubsequenceReflexive(t4);
    SubsequenceCons(CompanyTooSmall, t4, [LimitedBudget]);
    SubsequenceCons(CheckIndustryFit, t3, [CompanyTooSmall] + [LimitedBudget]);
    SubsequenceCons(ImproveDataQuality, t2, [CheckIndustryFit] + ([CompanyTooSmall] + [LimitedBudget]));
  }

  /** `scoreLeads`: same leads in the same order, only `rating` replaced by
      the computed score. */
  function ScoreLeads(leads: seq<Lead>): (r: seq<Lead>)
    ensures |r| == |leads|
    ensures forall i :: 0 <= i < |r| ==> r[i].(rating := leads[i].rating) == leads[i]
    ensures forall i :: 0 <= i < |r| ==> r[i].rating == CalculateLeadScore(leads[i])
    ensures forall i :: 0 <= i < |r| ==> 1.0 <= r[i].rating <= 10.0
  {
    seq(|leads|, i requires 0 <= i < |leads| => leads[i].(rating := CalculateLeadScore(leads[i])))
  }

  /** The hand-written employee staircase agrees with `EmployeeCountTable`:
      a count scores the entry of the largest table key not above it, and a
      count below every key scores the bottom entry. */
  lemma EmployeeStaircaseMatchesTable(n: int, k: int)
    requires k in EmployeeCountTable
    requires k <= n || (k == 1 && n < 1)
    requires forall k' :: k' in EmployeeCountTable && k' <= n ==> k' <= k
    ensures EmployeeCountScore(n) == EmployeeCountTable[k]
  {
    var t := EmployeeCountTable;
    assert 1 in t && 10 in t && 25 in t && 50 in t && 100 in t && 250 in t && 500 in t;
  }

  /** The hand-written revenue staircase agrees with `RevenueTable` in the
      same way. */
  lemma RevenueStaircaseMatchesTable(x: real, k: real)
    requires k in RevenueTable
    requires k <= x || (k == 500000.0 && x < 500000.0)
    requires forall k' :: k' in RevenueTable && k' <= x ==> k' <= k
    ensures RevenueScore(x) == RevenueTable[k]
  {
    var t := RevenueTable;
    assert 500000.0 in t && 1000000.0 in t && 2500000.0 in t && 5000000.0 in t;
    assert 10000000.0 in t && 25000000.0 in t && 50000000.0 in t;
  }

  /** Both staircases rise up to the second-highest bucket and then drop:
      every count or revenue in the top bucket scores strictly less than
      every one in the bucket below it. */
  lemma TopBucketsDrop(n: int, m: int, x: real, y: real)
    requires n >= 500 && 250 <= m < 500
    requires x >= 50000000.0 && 25000000.0 <= y < 50000000.0
    ensures EmployeeCountScore(n) < EmployeeCountScore(m)
    ensures RevenueScore(x) < RevenueScore(y)
  {
  }

  /** Below the top bucket both staircases are monotone. */
  lemma StaircasesMonotoneBelowTop(n: int, m: int, x: real, y: real)
    requires n <= m < 500 && x <= y < 50000000.0
    ensures EmployeeCountScore(n) <= EmployeeCountScore(m)
    ensures RevenueScore(x) <= RevenueScore(y)
  {
  }

  /** A lead of 150 employees and 15M revenue in Energy, B2B Services, Texas:
      component scores 8.0, 9.0, 9.0, 9.0 and 8.0, and the rating follows from
      them and the data-quality score through the fixed weights. */
  lemma EnergyTexasExample(lead: Lead)
    requires lead.employee_count == 150 && lead.annual_revenue == 15000000.0
    requires lead.industry == "Energy" && lead.business_type == "B2B Services" && lead.state == "TX"
    ensures IndustryScore(lead) == 8.0 && BusinessTypeScore(lead) == 9.0
    ensures EmployeeCountScore(lead.employee_count) == 9.0
    ensures RevenueScore(lead.annual_revenue) == 9.0
    ensures LocationScore(lead) == 8.0
    ensures CalculateLeadScore(lead) == 7.75 + 0.1 * DataQualityScore(lead)
  {
    ClampNeverBinds(lead);
  }
}
