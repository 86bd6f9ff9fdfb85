/**
 * The keyword engine as a whole: from a resume text and a job text to the
 * five-field assessment (score, strengths, gaps, summary, email draft).
 */
module Engine {
  import opened Wrappers
  import opened Text
  import opened Taxonomy
  import opened Skills
  import opened Experience
  import opened Profile
  import opened Scoring
  import opened Narrative
  import Json

  /** The five fields every tier of the service produces. */
  datatype Analysis = Analysis(matchScore: int, keyStrengths: seq<string>, missingSkills: seq<string>,
                               summary: string, emailDraft: string)

  /** A job that mentions "senior" or "lead" pays the seniority bonus by level. */
  predicate JobAsksSenior(job: string) {
    Contains(job, "senior") || Contains(job, "lead")
  }

  /** The engine's final score for the two (not yet lowercased) texts. */
  function EngineScore(resumeText: string, jobText: string): int {
    var resume := Lower(resumeText);
    var job := Lower(jobText);
    FinalScore(Subscore(job, resume),
               ExperienceBonus(YearsFrom(Patterns, resume)),
               SeniorityBonus(JobAsksSenior(job), SeniorityOf(resume)),
               EducationBonus(EducationOf(resume)),
               CertificationBonus(|FoundCertifications(CommonCertifications, resume)|))
  }

  /** The assessment the engine returns for the two texts when it does not raise (see `Assess`). */
  function Analyze(resumeText: string, jobText: string): Analysis {
    var resume := Lower(resumeText);
    var job := Lower(jobText);
    var es := Flatten(Categories);
    var matched := Matched(es, job, resume);
    var missing := Missing(es, job, resume);
    var years := YearsFrom(Patterns, resume);
    var score := EngineScore(resumeText, jobText);
    Analysis(score, KeyStrengths(matched), MissingSkills(missing),
             Join(SummaryParts(score, matched, missing, years, SeniorityOf(resume), EducationOf(resume),
                               |FoundCertifications(CommonCertifications, resume)|), " "),
             EmailDraft(score, years, matched, missing))
  }

  /**
   * `_analyze_with_fallback` as its callers see it. The method has no handler,
   * so the ValueError of `int()` on an over-long years capture escapes it;
   * otherwise it returns `Analyze`.
   */
  function Assess(resumeText: string, jobText: string): Result<Analysis, Json.PyError> {
    match YearsResult(Lower(resumeText))
    case Err(e) => Err(e)
    case Ok(_) => Ok(Analyze(resumeText, jobText))
  }

  /** A resume opening with more than 4300 digits and " years experience" makes the engine raise ValueError. */
  lemma LongYearsRaise(d: string, jobText: string)
    requires AllDigits(d) && |d| > MaxStrDigits
    ensures Assess(d + YearsExperience, jobText) == Err(Json.ValueError)
  {
    LowerDigitsExperience(d);
    LongRunRaises(d);
  }

  /** Lowercasing leaves digits and the lower-case phrase unchanged. */
  lemma LowerDigitsExperience(d: string)
    requires AllDigits(d)
    ensures Lower(d + YearsExperience) == d + YearsExperience
  {
    assert YearsExperience == " years " + "experience";
  }

  /**
   * The engine raises ValueError exactly when the years capture of the
   * lowercased resume has more than 4300 digits, and otherwise returns
   * `Analyze`, which satisfies: the score lies in 25..95, both lists are non-empty and capped,
   * the email is an invitation exactly from 65 on, and the summary opens with
   * the band and score.
   */
  lemma AnalyzeShape(resumeText: string, jobText: string)
    ensures var r := Assess(resumeText, jobText);
            (r.Err? <==> YearsTooLong(Lower(resumeText))) && (r.Err? ==> r.error == Json.ValueError)
            && (r.Ok? ==> r.value == Analyze(resumeText, jobText))
    ensures var a := Analyze(resumeText, jobText);
            25 <= a.matchScore <= 95
            && 1 <= |a.keyStrengths| <= 10 && 1 <= |a.missingSkills| <= 8
            && (StartsWith(a.emailDraft, InviteGreeting) <==> a.matchScore >= 65)
            && StartsWith(a.summary, Opening(a.matchScore))
  {
    AssessOutcome(resumeText, jobText);
    AnalysisBounds(resumeText, jobText);
  }

  /** The engine raises exactly on an over-long years capture, and otherwise returns `Analyze`. */
  lemma AssessOutcome(resumeText: string, jobText: string)
    ensures var r := Assess(resumeText, jobText);
            (r.Err? <==> YearsTooLong(Lower(resumeText))) && (r.Err? ==> r.error == Json.ValueError)
            && (r.Ok? ==> r.value == Analyze(resumeText, jobText))
  {
  }

  /** The bounds of `Analyze`, whatever the texts. */
  lemma AnalysisBounds(resumeText: string, jobText: string)
    ensures var a := Analyze(resumeText, jobText);
            25 <= a.matchScore <= 95
            && 1 <= |a.keyStrengths| <= 10 && 1 <= |a.missingSkills| <= 8
            && (StartsWith(a.emailDraft, InviteGreeting) <==> a.matchScore >= 65)
            && StartsWith(a.summary, Opening(a.matchScore))
  {
    var resume := Lower(resumeText);
    var job := Lower(jobText);
    var es := Flatten(Categories);
    var score := EngineScore(resumeText, jobText);
    var p := SummaryParts(score, Matched(es, job, resume), Missing(es, job, resume), YearsFrom(Patterns, resume),
                          SeniorityOf(resume), EducationOf(resume), |FoundCertifications(CommonCertifications, resume)|);
    SummaryShape(score, Matched(es, job, resume), Missing(es, job, resume), YearsFrom(Patterns, resume),
                 SeniorityOf(resume), EducationOf(resume), |FoundCertifications(CommonCertifications, resume)|);
    assert Analyze(resumeText, jobText).summary == Join(p, " ");
  }

  /** The engine's summary names gaps exactly when one to four required skills are missing from the resume. */
  lemma AnalyzeNamesGaps(resumeText: string, jobText: string)
    ensures var resume := Lower(resumeText);
            var job := Lower(jobText);
            var missing := Missing(Flatten(Categories), job, resume);
            var p := SummaryParts(EngineScore(resumeText, jobText), Matched(Flatten(Categories), job, resume),
                                  missing, YearsFrom(Patterns, resume), SeniorityOf(resume), EducationOf(resume),
                                  |FoundCertifications(CommonCertifications, resume)|);
            Analyze(resumeText, jobText).summary == Join(p, " ")
            && ((exists i :: 0 <= i < |p| && StartsWith(p[i], GapsLead)) <==> 0 < |missing| <= 4)
  {
    var resume := Lower(resumeText);
    var job := Lower(jobText);
    SummaryShape(EngineScore(resumeText, jobText), Matched(Flatten(Categories), job, resume),
                 Missing(Flatten(Categories), job, resume), YearsFrom(Patterns, resume), SeniorityOf(resume),
                 EducationOf(resume), |FoundCertifications(CommonCertifications, resume)|);
  }

  /** An invitation from the engine offers a technical discussion over video call from 75 on, this week from 80 on. */
  lemma EngineInvitationPhrases(resumeText: string, jobText: string)
    ensures var a := Analyze(resumeText, jobText);
            (a.matchScore >= 75 ==> Contains(a.emailDraft, "technical discussion") && Contains(a.emailDraft, "video call"))
            && (a.matchScore >= 80 ==> Contains(a.emailDraft, "this week"))
  {
    var resume, job := Lower(resumeText), Lower(jobText);
    var es := Flatten(Categories);
    EmailDraftPhrases(EngineScore(resumeText, jobText), YearsFrom(Patterns, resume),
                      Matched(es, job, resume), Missing(es, job, resume));
  }

  /** Adding text that names no experience, level, degree or certification never lowers the score. */
  lemma EngineScoreMonotone(resumeText: string, jobText: string, extra: string)
    requires YearsFrom(Patterns, Lower(resumeText + extra)) == YearsFrom(Patterns, Lower(resumeText))
    requires SeniorityOf(Lower(resumeText + extra)) == SeniorityOf(Lower(resumeText))
    requires EducationOf(Lower(resumeText + extra)) == EducationOf(Lower(resumeText))
    requires |FoundCertifications(CommonCertifications, Lower(resumeText + extra))|
             == |FoundCertifications(CommonCertifications, Lower(resumeText))|
    ensures EngineScore(resumeText, jobText) <= EngineScore(resumeText + extra, jobText)
  {
    SubscoreMonotone(jobText, resumeText, extra);
    var job, r1 := Lower(jobText), Lower(resumeText);
    FinalScoreMonotone(Subscore(job, r1), Subscore(job, Lower(resumeText + extra)),
                       ExperienceBonus(YearsFrom(Patterns, r1)), SeniorityBonus(JobAsksSenior(job), SeniorityOf(r1)),
                       EducationBonus(EducationOf(r1)), CertificationBonus(|FoundCertifications(CommonCertifications, r1)|));
  }

  /**
   * `_analyze_with_fallback`: lowercase both texts, run the scoring loop and the
   * detection loops, add the subscores, then write the summary, the email and the
   * capped lists. The years detection raises past the digit limit and nothing
   * catches it. Its result is `Assess`, whose bounds `AnalyzeShape` states.
   */
  method AnalyzeWithFallback(resumeText: string, jobText: string) returns (r: Result<Analysis, Json.PyError>)
    ensures r == Assess(resumeText, jobText)
  {
    var resume := Lower(resumeText);
    var job := Lower(jobText);
    var matched, missing, total, matchedWeight := MatchSkills(Categories, job, resume);
    var detectedYears := ExperienceYears(resume);
    if detectedYears.Err? {
      return Err(detectedYears.error);
    }
    var years := detectedYears.value;
    var level := DetectFirst(SeniorityTable, resume);
    var detected := level.GetOr(Mid);
    var education := DetectFirst(EducationTable, resume);
    var certs := FoundCertifications(CommonCertifications, resume);
    var skill := SkillScore(total, matchedWeight);
    var score := FinalScore(skill, ExperienceBonus(years), SeniorityBonus(JobAsksSenior(job), detected),
                            EducationBonus(education), CertificationBonus(|certs|));
    var summary := BuildSummary(score, matched, missing, years, detected, education, |certs|);
    var email := EmailDraft(score, years, matched, missing);
    r := Ok(Analysis(score, KeyStrengths(matched), MissingSkills(missing), summary, email));
  }
}
