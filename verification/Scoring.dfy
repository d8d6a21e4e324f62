/** Suitability scoring of a site assessment. */
module Scoring {
  import opened Domain

  /** What the schema accepts. */
  predicate Valid(f: SiteFacts) {
    0.0 <= f.sunlightHours <= 24.0 && 0.0 < f.usableSpaceM2 <= 100000.0 && f.installationTypes != []
  }

  function SunlightPoints(hours: real): int {
    if hours >= 6.0 then 30 else if hours >= 4.0 then 22 else if hours >= 2.0 then 10 else 0
  }

  function WaterPoints(w: WaterAccess): int {
    match w
    case ReliableWater => 25
    case LimitedWater => 12
    case NoWater => 0
  }

  function SpacePoints(m2: real): int {
    if m2 >= 10.0 then 20 else if m2 >= 5.0 then 15 else if m2 >= 2.0 then 8 else 3
  }

  function Weight(s: Severity): nat {
    match s
    case LowRisk => 2
    case MediumRisk => 5
    case HighRisk => 10
  }

  function RiskSum(risks: seq<Severity>): nat {
    if risks == [] then 0 else Weight(risks[0]) + RiskSum(risks[1..])
  }

  function Min(a: int, b: int): int {
    if a <= b then a else b
  }

  datatype Breakdown = Breakdown(sunlight: int, water: int, space: int, installation: int, safety: int)

  function BreakdownOf(f: SiteFacts): Breakdown {
    Breakdown(SunlightPoints(f.sunlightHours), WaterPoints(f.water), SpacePoints(f.usableSpaceM2),
              if f.installationTypes != [] then 10 else 0, 15 - Min(15, RiskSum(f.risks)))
  }

  function Total(b: Breakdown): int {
    b.sunlight + b.water + b.space + b.installation + b.safety
  }

  function BandOf(total: int): Band {
    if total >= 75 then Suitable else if total >= 55 then Conditional else NotSuitable
  }

  datatype Scored = Scored(score: int, breakdown: Breakdown, band: Band)

  function ScoreAssessment(f: SiteFacts): Scored {
    var b := BreakdownOf(f);
    Scored(Total(b), b, BandOf(Total(b)))
  }

  /** What a report stores of a scored assessment. */
  function FindingsOf(f: SiteFacts, crops: seq<string>, infrastructure: seq<string>): Findings {
    var s := ScoreAssessment(f);
    var b := s.breakdown;
    Findings(f, s.score, s.band, [b.sunlight, b.water, b.space, b.installation, b.safety], crops, infrastructure)
  }

  /** How a submitted report is flagged. */
  function OverallOf(b: Band): OverallStatus {
    match b
    case Suitable => Pass
    case Conditional => Warning
    case NotSuitable => Fail
  }

  function FollowUp(b: Band): bool {
    b != Suitable
  }

  // ---------- Laws ----------

  function Worth(b: bool, points: int): int {
    if b then points else 0
  }

  /** What every stored assessment says: the points of each part, step by step, their sum, and its band. */
  predicate ByTable(f: Findings) {
    var hours, m2, risks := f.site.sunlightHours, f.site.usableSpaceM2, multiset(f.site.risks);
    var lost: int := 2 * risks[LowRisk] + 5 * risks[MediumRisk] + 10 * risks[HighRisk];
    && |f.breakdown| == 5
    && f.breakdown[0] == Worth(hours >= 2.0, 10) + Worth(hours >= 4.0, 12) + Worth(hours >= 6.0, 8)
    && f.breakdown[1] == Worth(f.site.water != NoWater, 12) + Worth(f.site.water == ReliableWater, 13)
    && f.breakdown[2] == 3 + Worth(m2 >= 2.0, 5) + Worth(m2 >= 5.0, 7) + Worth(m2 >= 10.0, 5)
    && f.breakdown[3] == Worth(f.site.installationTypes != [], 10)
    && f.breakdown[4] == Worth(lost < 15, 15 - lost)
    && f.score == f.breakdown[0] + f.breakdown[1] + f.breakdown[2] + f.breakdown[3] + f.breakdown[4]
    && (f.band == Suitable <==> f.score >= 75)
    && (f.band == NotSuitable <==> f.score < 55)
  }

  lemma FindingsByTable(f: SiteFacts, crops: seq<string>, infrastructure: seq<string>)
    ensures var v := FindingsOf(f, crops, infrastructure);
            ByTable(v) && v.site == f && v.crops == crops && v.infrastructure == infrastructure
  {
    RiskSumByCount(f.risks);
  }

  /** The flags a submission carries for its band. */
  predicate Flags(overall: OverallStatus, followUp: bool, band: Band) {
    && (band == Suitable ==> overall == Pass && !followUp)
    && (band == Conditional ==> overall == Warning && followUp)
    && (band == NotSuitable ==> overall == Fail && followUp)
  }

  lemma FlagsAre(band: Band)
    ensures Flags(OverallOf(band), FollowUp(band), band)
  {
  }

  /** A dry site is suitable only at its very best, and a site in shade never is; a site with neither is not
      even conditional. */
  lemma BandLimits(f: SiteFacts)
    requires Valid(f)
    ensures f.water == NoWater ==>
              (ScoreAssessment(f).band == Suitable <==> f.sunlightHours >= 6.0 && f.usableSpaceM2 >= 10.0 && f.risks == [])
    ensures f.sunlightHours < 2.0 ==> ScoreAssessment(f).band != Suitable
    ensures f.sunlightHours < 2.0 && f.water == NoWater ==> ScoreAssessment(f).band == NotSuitable
  {
    RiskSumPositive(f.risks);
  }

  lemma {:induction false} RiskSumPositive(risks: seq<Severity>)
    ensures RiskSum(risks) == 0 <==> risks == []
  {
  }

  function BandRank(b: Band): nat {
    match b
    case NotSuitable => 0
    case Conditional => 1
    case Suitable => 2
  }

  function WaterRank(w: WaterAccess): nat {
    match w
    case NoWater => 0
    case LimitedWater => 1
    case ReliableWater => 2
  }

  /** Whatever the number of risks, a valid assessment scores between 13 and 100, and both ends occur. */
  lemma ScoreBounds(f: SiteFacts)
    requires Valid(f)
    ensures 13 <= ScoreAssessment(f).score <= 100
    ensures ScoreAssessment(SiteFacts(0.0, NoWater, 1.0, ["raised_bed"], [HighRisk, HighRisk])).score == 13
    ensures ScoreAssessment(SiteFacts(8.0, ReliableWater, 12.0, ["raised_bed"], [])).score == 100
  {
    assert RiskSum([HighRisk, HighRisk]) == 20 by {
      assert [HighRisk, HighRisk][1..] == [HighRisk];
      assert [HighRisk][1..] == [];
    }
  }

  lemma {:induction false} RiskSumByCount(risks: seq<Severity>)
    ensures var m := multiset(risks);
            RiskSum(risks) == 2 * m[LowRisk] + 5 * m[MediumRisk] + 10 * m[HighRisk]
  {
    if risks != [] {
      assert risks == [risks[0]] + risks[1..];
      RiskSumByCount(risks[1..]);
    }
  }

  /** The order in which risks are listed does not matter. */
  lemma RiskOrderIrrelevant(f: SiteFacts, risks: seq<Severity>)
    requires multiset(risks) == multiset(f.risks)
    ensures ScoreAssessment(f.(risks := risks)) == ScoreAssessment(f)
  {
    RiskSumByCount(f.risks);
    RiskSumByCount(risks);
  }

  lemma FewerRisksWeighLess(a: seq<Severity>, b: seq<Severity>)
    requires multiset(a) <= multiset(b)
    ensures RiskSum(a) <= RiskSum(b)
  {
    RiskSumByCount(a);
    RiskSumByCount(b);
    assert multiset(a)[LowRisk] <= multiset(b)[LowRisk] && multiset(a)[MediumRisk] <= multiset(b)[MediumRisk]
           && multiset(a)[HighRisk] <= multiset(b)[HighRisk];
  }

  lemma PointsClimb(f: SiteFacts, g: SiteFacts)
    requires f.sunlightHours <= g.sunlightHours && f.usableSpaceM2 <= g.usableSpaceM2
    requires WaterRank(f.water) <= WaterRank(g.water)
    ensures SunlightPoints(f.sunlightHours) <= SunlightPoints(g.sunlightHours)
    ensures WaterPoints(f.water) <= WaterPoints(g.water)
    ensures SpacePoints(f.usableSpaceM2) <= SpacePoints(g.usableSpaceM2)
  {
  }

  lemma BandClimbs(a: int, b: int)
    requires a <= b
    ensures BandRank(BandOf(a)) <= BandRank(BandOf(b))
    ensures FollowUp(BandOf(b)) ==> FollowUp(BandOf(a))
    ensures OverallOf(BandOf(a)) == Pass ==> OverallOf(BandOf(b)) == Pass
    ensures OverallOf(BandOf(b)) == Fail ==> OverallOf(BandOf(a)) == Fail
  {
  }

  /** More sun, better water, more space, and fewer of the same risks never lower the score or the band. */
  lemma BetterSiteScoresNoLess(f: SiteFacts, g: SiteFacts)
    requires Valid(f) && Valid(g)
    requires f.sunlightHours <= g.sunlightHours && f.usableSpaceM2 <= g.usableSpaceM2
    requires WaterRank(f.water) <= WaterRank(g.water)
    requires multiset(g.risks) <= multiset(f.risks)
    ensures ScoreAssessment(f).score <= ScoreAssessment(g).score
    ensures BandRank(ScoreAssessment(f).band) <= BandRank(ScoreAssessment(g).band)
    ensures FollowUp(ScoreAssessment(g).band) ==> FollowUp(ScoreAssessment(f).band)
    ensures OverallOf(ScoreAssessment(f).band) == Pass ==> OverallOf(ScoreAssessment(g).band) == Pass
    ensures OverallOf(ScoreAssessment(g).band) == Fail ==> OverallOf(ScoreAssessment(f).band) == Fail
  {
    FewerRisksWeighLess(g.risks, f.risks);
    PointsClimb(f, g);
    BandClimbs(ScoreAssessment(f).score, ScoreAssessment(g).score);
  }
}
