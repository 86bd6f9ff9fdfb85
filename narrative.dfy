/**
 * The prose of the keyword engine: the summary assembled from optional
 * sentences, the invitation and rejection emails, and the capped strength and
 * gap lists with their placeholders. Skill names are shown title-cased.
 */
module Narrative {
  import opened Wrappers
  import opened Text
  import opened Taxonomy
  import opened Profile
  import opened Scoring

  /** Display names of entries, in order. */
  function Names(es: seq<Entry>): (r: seq<string>)
    ensures |r| == |es| && forall i :: 0 <= i < |es| ==> r[i] == Title(es[i].term)
  {
    seq(|es|, i requires 0 <= i < |es| => Title(es[i].term))
  }

  /** `xs[:n]` */
  function Take<T>(xs: seq<T>, n: nat): (r: seq<T>)
    ensures |r| == if |xs| <= n then |xs| else n
    ensures r <= xs
  {
    if |xs| <= n then xs else xs[..n]
  }

  /** `", ".join(...)` of the first `n` display names. */
  function NameList(es: seq<Entry>, n: nat): string {
    Join(Names(Take(es, n)), ", ")
  }

  function LevelName(level: Level): string {
    match level
    case Senior => "senior"
    case Mid => "mid"
    case Junior => "junior"
  }

  function DegreeDisplay(d: Degree): string {
    match d
    case Phd => "doctoral degree"
    case Masters => "master's degree"
    case Bachelors => "bachelor's degree"
    case Associates => "associate degree"
  }

  const OpeningLead: string := "Candidate demonstrates "
  const OpeningMiddle: string := " alignment with the position requirements ("
  const OpeningTail: string := "% overall match)."
  const SkillsLead: string := "Strong technical capabilities identified in "
  const ExperienceLead: string := "Brings "
  const ExperienceMiddle: string := "+ years of professional experience at the "
  const EducationLead: string := "Educational background includes "
  const CertificationLead: string := "Holds "
  const CertificationTail: string := " relevant professional certification(s)."
  const GapsLead: string := "Development opportunities exist in "
  const ConclusionLead: string := "Overall assessment: "

  function Opening(score: int): string {
    OpeningLead + Assessment(BandOf(score)) + OpeningMiddle + IntStr(score) + OpeningTail
  }

  function Conclusion(score: int): string {
    ConclusionLead + Recommendation(BandOf(score)) + "."
  }

  function Optional(present: bool, part: string): seq<string> {
    if present then [part] else []
  }

  function SkillsSentence(matched: seq<Entry>): string {
    SkillsLead + NameList(matched, 3) + "."
  }

  function ExperienceSentence(years: nat, level: Level): string {
    ExperienceLead + NatStr(years) + ExperienceMiddle + LevelName(level) + " level."
  }

  function EducationSentence(d: Degree): string {
    EducationLead + DegreeDisplay(d) + "."
  }

  function CertificationSentence(count: nat): string {
    CertificationLead + NatStr(count) + CertificationTail
  }

  function GapsSentence(missing: seq<Entry>): string {
    GapsLead + NameList(missing, 3) + "."
  }

  /** The summary sentences, in order; the middle ones appear only when there is something to say. */
  function SummaryParts(score: int, matched: seq<Entry>, missing: seq<Entry>, years: nat,
                        level: Level, education: Option<Degree>, certCount: nat): seq<string>
  {
    [Opening(score)]
    + Optional(matched != [], SkillsSentence(matched))
    + Optional(years > 0, ExperienceSentence(years, level))
    + Optional(education.Some?, if education.Some? then EducationSentence(education.value) else "")
    + Optional(certCount > 0, CertificationSentence(certCount))
    + Optional(missing != [] && |missing| <= 4, GapsSentence(missing))
    + [Conclusion(score)]
  }

  /** Summary assembly by successive appends, then joined with single spaces. */
  method BuildSummary(score: int, matched: seq<Entry>, missing: seq<Entry>, years: nat,
                      level: Level, education: Option<Degree>, certCount: nat)
    returns (summary: string)
    ensures summary == Join(SummaryParts(score, matched, missing, years, level, education, certCount), " ")
  {
    var parts := [Opening(score)];
    ghost var before := parts;
    if matched != [] {
      parts := parts + [SkillsSentence(matched)];
    }
    AppendOptional(before, matched != [], SkillsSentence(matched));
    assert parts == before + Optional(matched != [], SkillsSentence(matched));
    before := parts;
    if years > 0 {
      parts := parts + [ExperienceSentence(years, level)];
    }
    AppendOptional(before, years > 0, ExperienceSentence(years, level));
    assert parts == before + Optional(years > 0, ExperienceSentence(years, level));
    before := parts;
    if education.Some? {
      parts := parts + [EducationSentence(education.value)];
    }
    AppendOptional(before, education.Some?, if education.Some? then EducationSentence(education.value) else "");
    assert parts == before + Optional(education.Some?, if education.Some? then EducationSentence(education.value) else "");
    before := parts;
    if certCount > 0 {
      parts := parts + [CertificationSentence(certCount)];
    }
    AppendOptional(before, certCount > 0, CertificationSentence(certCount));
    assert parts == before + Optional(certCount > 0, CertificationSentence(certCount));
    before := parts;
    if missing != [] && |missing| <= 4 {
      parts := parts + [GapsSentence(missing)];
    }
    AppendOptional(before, missing != [] && |missing| <= 4, GapsSentence(missing));
    assert parts == before + Optional(missing != [] && |missing| <= 4, GapsSentence(missing));
    parts := parts + [Conclusion(score)];
    assert parts == SummaryParts(score, matched, missing, years, level, education, certCount);
    summary := Join(parts, " ");
  }

  lemma AppendOptional(parts: seq<string>, present: bool, part: string)
    ensures (if present then parts + [part] else parts) == parts + Optional(present, part)
  {
    if !present {
      assert parts + [] == parts;
    }
  }

  /** The joined text starts with the first part. */
  lemma JoinStartsWithHead(parts: seq<string>, sep: string)
    requires parts != []
    ensures StartsWith(Join(parts, sep), parts[0])
  {
    if |parts| > 1 {
      assert Join(parts, sep) == parts[0] + (sep + Join(parts[1..], sep));
    }
  }

  /**
   * The summary opens with the band and score sentence and closes with the
   * recommendation, and it names gaps exactly when one to four skills are missing.
   */
  lemma SummaryShape(score: int, matched: seq<Entry>, missing: seq<Entry>, years: nat,
                     level: Level, education: Option<Degree>, certCount: nat)
    ensures var p := SummaryParts(score, matched, missing, years, level, education, certCount);
            2 <= |p| <= 7 && p[0] == Opening(score) && p[|p| - 1] == Conclusion(score)
            && ((exists i :: 0 <= i < |p| && StartsWith(p[i], GapsLead)) <==> 0 < |missing| <= 4)
    ensures StartsWith(Join(SummaryParts(score, matched, missing, years, level, education, certCount), " "),
                       Opening(score))
  {
    var p := SummaryParts(score, matched, missing, years, level, education, certCount);
    JoinStartsWithHead(p, " ");
    if 0 < |missing| <= 4 {
      var g := GapsSentence(missing);
      assert p[|p| - 2] == g;
      StartsWithAppend(GapsLead, NameList(missing, 3) + ".");
      assert g == GapsLead + (NameList(missing, 3) + ".");
    } else {
      forall i | 0 <= i < |p|
        ensures !StartsWith(p[i], GapsLead)
      {
        SummaryPartsOutsideGaps(score, matched, missing, years, level, education, certCount);
        assert p[i] in p;
      }
    }
  }

  /** A sentence whose first letter is not the gap sentence's `D` is not a gap sentence. */
  lemma NotGapSentence(x: string)
    requires |x| > 0 && x[0] != 'D'
    ensures !StartsWith(x, GapsLead)
  {
    assert GapsLead[0] == 'D';
  }

  /** Appending a part that is not a gap sentence keeps a list free of gap sentences. */
  lemma NoGapsAppend(parts: seq<string>, present: bool, part: string)
    requires forall x :: x in parts ==> !StartsWith(x, GapsLead)
    requires present ==> !StartsWith(part, GapsLead)
    ensures forall x :: x in parts + Optional(present, part) ==> !StartsWith(x, GapsLead)
  {
  }

  /** Each sentence other than the gap sentence opens with its own lead, none of them with the gap sentence's. */
  lemma OtherSentencesNotGaps(score: int, matched: seq<Entry>, years: nat, level: Level, d: Degree, certCount: nat)
    ensures !StartsWith(Opening(score), GapsLead)
    ensures !StartsWith(SkillsSentence(matched), GapsLead)
    ensures !StartsWith(ExperienceSentence(years, level), GapsLead)
    ensures !StartsWith(EducationSentence(d), GapsLead)
    ensures !StartsWith(CertificationSentence(certCount), GapsLead)
    ensures !StartsWith(Conclusion(score), GapsLead)
  {
    assert Opening(score)[0] == OpeningLead[0] == 'C';
    NotGapSentence(Opening(score));
    assert SkillsSentence(matched)[0] == SkillsLead[0] == 'S';
    NotGapSentence(SkillsSentence(matched));
    assert ExperienceSentence(years, level)[0] == ExperienceLead[0] == 'B';
    NotGapSentence(ExperienceSentence(years, level));
    assert EducationSentence(d)[0] == EducationLead[0] == 'E';
    NotGapSentence(EducationSentence(d));
    assert CertificationSentence(certCount)[0] == CertificationLead[0] == 'H';
    NotGapSentence(CertificationSentence(certCount));
    assert Conclusion(score)[0] == ConclusionLead[0] == 'O';
    NotGapSentence(Conclusion(score));
  }

  /** Without one to four gaps, none of the summary sentences is a gap sentence. */
  lemma SummaryPartsOutsideGaps(score: int, matched: seq<Entry>, missing: seq<Entry>, years: nat,
                                level: Level, education: Option<Degree>, certCount: nat)
    requires !(0 < |missing| <= 4)
    ensures forall x :: x in SummaryParts(score, matched, missing, years, level, education, certCount)
                        ==> !StartsWith(x, GapsLead)
  {
    OtherSentencesNotGaps(score, matched, years, level, education.GetOr(Phd), certCount);
    var edu := if education.Some? then EducationSentence(education.value) else "";
    var p := [Opening(score)];
    NoGapsAppend(p, matched != [], SkillsSentence(matched));
    p := p + Optional(matched != [], SkillsSentence(matched));
    NoGapsAppend(p, years > 0, ExperienceSentence(years, level));
    p := p + Optional(years > 0, ExperienceSentence(years, level));
    NoGapsAppend(p, education.Some?, edu);
    p := p + Optional(education.Some?, edu);
    NoGapsAppend(p, certCount > 0, CertificationSentence(certCount));
    p := p + Optional(certCount > 0, CertificationSentence(certCount));
    NoGapsAppend(p, false, GapsSentence(missing));
    p := p + Optional(missing != [] && |missing| <= 4, GapsSentence(missing));
    NoGapsAppend(p, true, Conclusion(score));
  }

  const Salutation: string := "Dear Candidate,\n\nThank you for "
  const InviteGreeting: string := Salutation + "your application"
  const RejectGreeting: string := Salutation + "taking the time"

  const TechnicalFormat: string := "technical discussion with our engineering team"
  const ConversationFormat: string := "conversation" + " to explore your experience in more detail"

  /** The interview stage promised by the invitation. */
  function InterviewFormat(score: int): (r: string)
    ensures StartsWith(r, "technical discussion") <==> score >= 75
  {
    if score >= 75 then
      assert TechnicalFormat[..20] == "technical discussion";
      TechnicalFormat
    else
      assert ConversationFormat[0] == 'c';
      ConversationFormat
  }

  /** The kind of call the invitation asks for. */
  function CallMedium(score: int): (r: string)
    ensures r == "video call" <==> score >= 75
  {
    if score >= 75 then "video call" else "phone call"
  }

  /** How soon the invitation asks for availability. */
  function Urgency(score: int): (r: string)
    ensures r == "this week" <==> score >= 80
  {
    if score >= 80 then "this week" else "in the coming week"
  }

  const InvitationIntro: string :=
    " for this position. We have completed our " + "initial review of your resume and are impressed " + "with your qualifications.\n\n"
    + "Your profile demonstrates a "
  const InvitationFit: string := " fit with our requirements ("
  const InvitationScore: string := "% match), particularly your experience with "
  const InvitationAlign: string := " aligns well with what we're looking for in this role.\n\n"
    + "We would like to invite you to the next " + "stage of our hiring process. This will involve a "
  const InvitationAvailability: string := ".\n\nPlease let us know your availability for a "
  const InvitationClosing: string :=
    ".\n\nWe look forward to speaking with you " + "soon.\n\nBest regards,\nHiring Team\nSmartHire " + "Recruiting"

  /** The invitation up to the interview format: fit level, score, top skills and experience. */
  function InvitationOpening(score: int, years: nat, matched: seq<Entry>): string {
    InvitationIntro + FitLevel(BandOf(score)) + InvitationFit + IntStr(score) + InvitationScore
      + (if matched != [] then NameList(matched, 3) else "relevant technologies") + ". "
      + (if years > 0 then "Your " + NatStr(years) + "+ years of experience" else "Your background")
      + InvitationAlign
  }

  function InvitationEmail(score: int, years: nat, matched: seq<Entry>): string {
    InviteGreeting + (InvitationOpening(score, years, matched) + InterviewFormat(score)
      + InvitationAvailability + CallMedium(score) + " " + Urgency(score) + InvitationClosing)
  }

  const RejectionIntro: string :=
    " to apply for this position and for your " + "interest in joining our team.\n\n"
    + "We appreciate the opportunity to review " + "your application. After careful consideration " + "of all candidates, "
    + "we have decided to move forward with applicants " + "whose experience more closely aligns with " + "our current "
    + "specific requirements, particularly in areas such as "
  const RejectionStrengths: string := ".\n\nWe recognize your strengths in "
  const RejectionEncourage: string := ", and we encourage you to continue developing " + "your expertise in "
  const RejectionClosing: string := ".\n\n"
    + "We will keep your resume on file and encourage " + "you to apply for future positions that may " + "be a better "
    + "match for your background and career goals.\n\n"
    + "Thank you again for your interest in our " + "organization. We wish you the very best " + "in your job search "
    + "and career development.\n\nBest regards,\nHiring " + "Team\nSmartHire Recruiting"

  function RejectionEmail(matched: seq<Entry>, missing: seq<Entry>): string {
    RejectGreeting + (RejectionIntro
      + (if missing != [] then NameList(missing, 3) else "certain specialized technologies")
      + RejectionStrengths + (if matched != [] then NameList(matched, 2) else "your field")
      + RejectionEncourage + (if missing != [] then NameList(missing, 2) else "emerging technologies")
      + RejectionClosing)
  }

  lemma StartsWithAppend(p: string, rest: string)
    ensures StartsWith(p + rest, p)
  {
    assert (p + rest)[..|p|] == p;
  }

  /** No text starts with both greetings: they part right after the salutation, at "your" against "taking". */
  lemma GreetingsDiffer(e: string)
    ensures !(StartsWith(e, InviteGreeting) && StartsWith(e, RejectGreeting))
  {
    var k := |Salutation|;
    assert InviteGreeting[k] == 'y' && RejectGreeting[k] == 't';
    if StartsWith(e, InviteGreeting) {
      assert e[k] == InviteGreeting[k];
    }
  }

  /** The email draft: an interview invitation exactly when the score reaches 65, else a polite rejection. */
  function EmailDraft(score: int, years: nat, matched: seq<Entry>, missing: seq<Entry>): (e: string)
    ensures StartsWith(e, InviteGreeting) <==> score >= 65
    ensures StartsWith(e, RejectGreeting) <==> score < 65
    ensures score >= 65 ==> e == InvitationEmail(score, years, matched)
    ensures score < 65 ==> e == RejectionEmail(matched, missing)
  {
    if score >= 65 then
      var e := InvitationEmail(score, years, matched);
      StartsWithAppend(InviteGreeting, e[|InviteGreeting|..]);
      GreetingsDiffer(e);
      e
    else
      var e := RejectionEmail(matched, missing);
      StartsWithAppend(RejectGreeting, e[|RejectGreeting|..]);
      GreetingsDiffer(e);
      e
  }

  /** The invitation carries the interview format chosen by the score. */
  lemma InvitationFormatPhrase(score: int, years: nat, matched: seq<Entry>)
    requires score >= 75
    ensures Contains(InvitationEmail(score, years, matched), "technical discussion")
  {
    var o := InvitationOpening(score, years, matched);
    var f := InterviewFormat(score);
    ContainsPrefix(f, "technical discussion");
    ContainsAppendLeft(o, f, "technical discussion");
    var x := o + f;
    ContainsAppendRight(x, InvitationAvailability, "technical discussion");
    x := x + InvitationAvailability;
    ContainsAppendRight(x, CallMedium(score), "technical discussion");
    x := x + CallMedium(score);
    ContainsAppendRight(x, " ", "technical discussion");
    x := x + " ";
    ContainsAppendRight(x, Urgency(score), "technical discussion");
    x := x + Urgency(score);
    ContainsAppendRight(x, InvitationClosing, "technical discussion");
    ContainsAppendLeft(InviteGreeting, x + InvitationClosing, "technical discussion");
  }

  /** The invitation carries the call medium chosen by the score. */
  lemma InvitationCallPhrase(score: int, years: nat, matched: seq<Entry>)
    requires score >= 75
    ensures Contains(InvitationEmail(score, years, matched), "video call")
  {
    var c := CallMedium(score);
    var x := InvitationOpening(score, years, matched) + InterviewFormat(score) + InvitationAvailability;
    ContainsSelf(c);
    ContainsAppendLeft(x, c, c);
    x := x + c;
    ContainsAppendRight(x, " ", c);
    x := x + " ";
    ContainsAppendRight(x, Urgency(score), c);
    x := x + Urgency(score);
    ContainsAppendRight(x, InvitationClosing, c);
    ContainsAppendLeft(InviteGreeting, x + InvitationClosing, c);
  }

  /** The invitation carries the urgency chosen by the score. */
  lemma InvitationUrgencyPhrase(score: int, years: nat, matched: seq<Entry>)
    requires score >= 80
    ensures Contains(InvitationEmail(score, years, matched), "this week")
  {
    var u := Urgency(score);
    var x := InvitationOpening(score, years, matched) + InterviewFormat(score) + InvitationAvailability
      + CallMedium(score) + " ";
    ContainsSelf(u);
    ContainsAppendLeft(x, u, u);
    ContainsAppendRight(x + u, InvitationClosing, u);
    ContainsAppendLeft(InviteGreeting, x + u + InvitationClosing, u);
  }
  /** A draft for a score from 75 offers a technical discussion over a video call; from 80 on, one this week. */
  lemma EmailDraftPhrases(score: int, years: nat, matched: seq<Entry>, missing: seq<Entry>)
    ensures score >= 75 ==> Contains(EmailDraft(score, years, matched, missing), "technical discussion")
                            && Contains(EmailDraft(score, years, matched, missing), "video call")
    ensures score >= 80 ==> Contains(EmailDraft(score, years, matched, missing), "this week")
  {
    if score >= 75 {
      InvitationFormatPhrase(score, years, matched);
      InvitationCallPhrase(score, years, matched);
    }
    if score >= 80 {
      InvitationUrgencyPhrase(score, years, matched);
    }
  }

  const StrengthPlaceholders: seq<string> := ["Professional experience", "Educational qualifications", "Communication skills"]
  const GapPlaceholders: seq<string> := ["No critical gaps identified"]

  /** `key_strengths`: up to ten matched skills in visiting order, or three placeholders when none matched. */
  function KeyStrengths(matched: seq<Entry>): (r: seq<string>)
    ensures 1 <= |r| <= 10
    ensures matched == [] ==> r == StrengthPlaceholders
    ensures matched != [] ==> |r| == (if |matched| <= 10 then |matched| else 10)
                              && forall i :: 0 <= i < |r| ==> r[i] == Title(matched[i].term)
  {
    if matched == [] then StrengthPlaceholders else Names(Take(matched, 10))
  }

  /** `missing_skills`: up to eight gaps in visiting order, or one placeholder when there is none. */
  function MissingSkills(missing: seq<Entry>): (r: seq<string>)
    ensures 1 <= |r| <= 8
    ensures missing == [] ==> r == GapPlaceholders
    ensures missing != [] ==> |r| == (if |missing| <= 8 then |missing| else 8)
                              && forall i :: 0 <= i < |r| ==> r[i] == Title(missing[i].term)
  {
    if missing == [] then GapPlaceholders else Names(Take(missing, 8))
  }
}
