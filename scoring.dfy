/**
 * The five subscores of the keyword engine, the clamped final score and the
 * score band that selects the wording of the summary and the email.
 */
module Scoring {
  import opened Wrappers
  import opened Profile

  /** Experience bonus: 15/12/10/7/5 at 10/7/5/3/1 years, else 0. */
  function ExperienceBonus(years: nat): (r: nat)
    ensures r <= 15
    ensures r == 0 <==> years == 0
    ensures r == 15 <==> years >= 10
  {
    if years >= 10 then 15
    else if years >= 7 then 12
    else if years >= 5 then 10
    else if years >= 3 then 7
    else if years >= 1 then 5
    else 0
  }

  /** More years never earn a smaller experience bonus. */
  lemma ExperienceBonusMonotone(y1: nat, y2: nat)
    requires y1 <= y2
    ensures ExperienceBonus(y1) <= ExperienceBonus(y2)
  {
  }

  /** Seniority bonus: a job asking for "senior" or "lead" pays 10/5/0 for senior/mid/junior; any other job pays 5. */
  function SeniorityBonus(jobAsksSenior: bool, level: Level): (r: nat)
    ensures r <= 10
    ensures !jobAsksSenior ==> r == 5
    ensures jobAsksSenior ==> (r == 10 <==> level == Senior) && (r == 0 <==> level == Junior)
  {
    if jobAsksSenior then
      match level
      case Senior => 10
      case Mid => 5
      case Junior => 0
    else 5
  }

  /** How senior a level is, for comparing bonuses. */
  function LevelRank(level: Level): nat {
    match level
    case Junior => 0
    case Mid => 1
    case Senior => 2
  }

  /** A more senior candidate never earns a smaller seniority bonus. */
  lemma SeniorityBonusMonotone(jobAsksSenior: bool, a: Level, b: Level)
    requires LevelRank(a) <= LevelRank(b)
    ensures SeniorityBonus(jobAsksSenior, a) <= SeniorityBonus(jobAsksSenior, b)
  {
  }

  /** How high a degree is, 0 for none. */
  function DegreeRank(d: Option<Degree>): nat {
    match d
    case None => 0
    case Some(Associates) => 1
    case Some(Bachelors) => 2
    case Some(Masters) => 3
    case Some(Phd) => 4
  }

  /** Education bonus: 10/8/6/4 for phd/masters/bachelors/associates, 0 without a degree. */
  function EducationBonus(d: Option<Degree>): (r: nat)
    ensures r <= 10 && r % 2 == 0
    ensures r == 0 <==> d.None?
    ensures d.Some? ==> r == 2 + 2 * DegreeRank(d)
  {
    match d
    case None => 0
    case Some(Phd) => 10
    case Some(Masters) => 8
    case Some(Bachelors) => 6
    case Some(Associates) => 4
  }

  /** A higher degree never earns a smaller education bonus. */
  lemma EducationBonusMonotone(a: Option<Degree>, b: Option<Degree>)
    requires DegreeRank(a) <= DegreeRank(b)
    ensures EducationBonus(a) <= EducationBonus(b)
  {
  }

  /** The certification bonus is always one of 0, 2, 4 and 5. */
  lemma CertificationBonusValues(count: nat)
    ensures CertificationBonus(count) in {0, 2, 4, 5}
  {
  }

  /** `min(95, max(25, raw))` */
  function Clamp(raw: int): (r: int)
    ensures 25 <= r <= 95
    ensures 25 <= raw <= 95 ==> r == raw
    ensures raw <= 25 ==> r == 25
    ensures raw >= 95 ==> r == 95
  {
    if raw < 25 then 25 else if raw > 95 then 95 else raw
  }

  /** Clamping keeps the order of its arguments. */
  lemma ClampMonotone(a: int, b: int)
    requires a <= b
    ensures Clamp(a) <= Clamp(b)
  {
  }

  /** The final score: the five subscores added, then clamped. */
  function FinalScore(skill: int, experience: nat, seniority: nat, education: nat, certification: nat): (r: int)
    ensures 25 <= r <= 95
  {
    Clamp(skill + experience + seniority + education + certification)
  }

  /** A larger skill subscore never lowers the final score when the bonuses stay the same. */
  lemma FinalScoreMonotone(s1: int, s2: int, experience: nat, seniority: nat, education: nat, certification: nat)
    requires s1 <= s2
    ensures FinalScore(s1, experience, seniority, education, certification)
            <= FinalScore(s2, experience, seniority, education, certification)
  {
    ClampMonotone(s1 + experience + seniority + education + certification,
                  s2 + experience + seniority + education + certification);
  }

  /** With every subscore at its cap (60 + 15 + 10 + 10 + 5 = 100) the clamp cuts the score down to 95. */
  lemma TopScore()
    ensures FinalScore(60, ExperienceBonus(10), SeniorityBonus(true, Senior), EducationBonus(Some(Phd)), CertificationBonus(3)) == 95
  {
  }

  datatype Band = Exceptional | Strong | Good | Moderate | Limited

  /** The lowest score of each band. */
  function Threshold(b: Band): int {
    match b
    case Exceptional => 85
    case Strong => 75
    case Good => 65
    case Moderate => 50
    case Limited => 0
  }

  /** The next band up, for the band boundaries. */
  function Above(b: Band): Option<Band> {
    match b
    case Exceptional => None
    case Strong => Some(Exceptional)
    case Good => Some(Strong)
    case Moderate => Some(Good)
    case Limited => Some(Moderate)
  }

  /** The band of a final score: exceptional/strong/good/moderate/limited at 85/75/65/50/else. */
  function BandOf(score: int): (b: Band)
    ensures b != Limited ==> score >= Threshold(b)
    ensures Above(b).Some? ==> score < Threshold(Above(b).value)
  {
    if score >= 85 then Exceptional
    else if score >= 75 then Strong
    else if score >= 65 then Good
    else if score >= 50 then Moderate
    else Limited
  }

  /** A band is exactly the half-open range from its threshold to the next one. */
  lemma BandRange(score: int, b: Band)
    requires b != Limited ==> score >= Threshold(b)
    requires Above(b).Some? ==> score < Threshold(Above(b).value)
    ensures BandOf(score) == b
  {
  }

  function BandRank(b: Band): nat {
    match b
    case Limited => 0
    case Moderate => 1
    case Good => 2
    case Strong => 3
    case Exceptional => 4
  }

  /** A higher score never falls in a lower band. */
  lemma BandMonotone(s1: int, s2: int)
    requires s1 <= s2
    ensures BandRank(BandOf(s1)) <= BandRank(BandOf(s2))
  {
  }

  /** Assessment word used in the summary. */
  function Assessment(b: Band): string {
    match b
    case Exceptional => "exceptional"
    case Strong => "strong"
    case Good => "good"
    case Moderate => "moderate"
    case Limited => "limited"
  }

  /** Recommendation used in the summary's conclusion. */
  function Recommendation(b: Band): string {
    match b
    case Exceptional => "strongly recommended as a top candidate " + "for immediate interview"
    case Strong => "highly recommended for interview as a strong match"
    case Good => "recommended for interview consideration"
    case Moderate => "suitable for further review and evaluation"
    case Limited => "may not fully meet current requirements"
  }

  /** Fit level used in the invitation email. */
  function FitLevel(b: Band): string {
    match b
    case Exceptional => "excellent"
    case Strong => "very good"
    case Good => "good"
    case Moderate => "moderate"
    case Limited => "below expectations"
  }
}
