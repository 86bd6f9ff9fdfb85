/**
 * Candidate profile read from the lowercased resume: seniority level, highest
 * education level and the certifications it names. Each level table is tried in
 * its listed order and the first level with any keyword present in the text wins.
 */
module Profile {
  import opened Wrappers
  import opened Text

  datatype Level = Senior | Mid | Junior
  datatype Degree = Phd | Masters | Bachelors | Associates

  const SeniorKeywords: seq<string> := ["senior", "sr.", "lead", "principal", "staff", "architect"]
  const MidKeywords: seq<string> := ["mid-level", "intermediate", "engineer ii", "developer ii"]
  const JuniorKeywords: seq<string> := ["junior", "jr.", "entry", "associate", "graduate"]

  const SeniorityTable: seq<(Level, seq<string>)> :=
    [(Senior, SeniorKeywords), (Mid, MidKeywords), (Junior, JuniorKeywords)]

  const PhdKeywords: seq<string> := ["ph.d", "phd", "doctorate", "doctoral"]
  const MastersKeywords: seq<string> := ["master", "ms ", "m.s.", "msc", "m.sc", "mba"]
  const BachelorsKeywords: seq<string> := ["bachelor", "bs ", "b.s.", "bsc", "b.sc", "ba ", "b.a."]
  const AssociatesKeywords: seq<string> := ["associate", "as ", "a.s."]

  const EducationTable: seq<(Degree, seq<string>)> :=
    [(Phd, PhdKeywords), (Masters, MastersKeywords), (Bachelors, BachelorsKeywords), (Associates, AssociatesKeywords)]

  const CommonCertifications: seq<string> :=
    ["aws certified", "azure certified", "gcp certified",
     "pmp", "scrum master", "csm", "safe",
     "cissp", "security+", "ceh",
     "oracle certified", "microsoft certified",
     "ckad", "cka"]

  /** `any(keyword in text for keyword in keywords)` */
  predicate AnyOccurs(text: string, keywords: seq<string>) {
    exists k :: 0 <= k < |keywords| && Contains(text, keywords[k])
  }

  /** The first level of `table`, in order, that has a keyword in `text`. */
  function FirstMatching<L>(table: seq<(L, seq<string>)>, text: string): Option<L> {
    if table == [] then None
    else if AnyOccurs(text, table[0].1) then Some(table[0].0)
    else FirstMatching(table[1..], text)
  }

  /** The detection loop: stop at the first level with any keyword present. */
  method DetectFirst<L>(table: seq<(L, seq<string>)>, text: string) returns (r: Option<L>)
    ensures r == FirstMatching(table, text)
    ensures r.Some? <==> exists i :: 0 <= i < |table| && AnyOccurs(text, table[i].1)
    ensures r.Some? ==> exists i :: 0 <= i < |table| && table[i].0 == r.value && AnyOccurs(text, table[i].1)
                                    && forall j :: 0 <= j < i ==> !AnyOccurs(text, table[j].1)
  {
    r := None;
    for i := 0 to |table|
      invariant forall j :: 0 <= j < i ==> !AnyOccurs(text, table[j].1)
      invariant FirstMatching(table, text) == FirstMatching(table[i..], text)
      invariant r == None
    {
      if AnyOccurs(text, table[i].1) {
        r := Some(table[i].0);
        break;
      }
      assert table[i..][1..] == table[i + 1..];
    }
  }

  /** Seniority, `mid` when nothing matches. */
  function SeniorityOf(text: string): Level {
    FirstMatching(SeniorityTable, text).GetOr(Mid)
  }

  /** Education, none when nothing matches. */
  function EducationOf(text: string): Option<Degree> {
    FirstMatching(EducationTable, text)
  }

  /** The seniority levels, stated outright: senior keywords beat all others, junior needs the absence of both others. */
  lemma SeniorityRules(text: string)
    ensures SeniorityOf(text) == Senior <==> AnyOccurs(text, SeniorKeywords)
    ensures SeniorityOf(text) == Junior <==>
            !AnyOccurs(text, SeniorKeywords) && !AnyOccurs(text, MidKeywords) && AnyOccurs(text, JuniorKeywords)
    ensures SeniorityOf(text) == Mid <==>
            !AnyOccurs(text, SeniorKeywords) && (AnyOccurs(text, MidKeywords) || !AnyOccurs(text, JuniorKeywords))
  {
    var t1 := [(Mid, MidKeywords), (Junior, JuniorKeywords)];
    var t2 := [(Junior, JuniorKeywords)];
    assert SeniorityTable[1..] == t1 && t1[1..] == t2 && t2[1..] == [];
    assert FirstMatching(t2, text) == if AnyOccurs(text, JuniorKeywords) then Some(Junior) else None;
    assert FirstMatching(t1, text) == if AnyOccurs(text, MidKeywords) then Some(Mid) else FirstMatching(t2, text);
  }

  /** The education levels, stated outright: the highest degree with a keyword present is reported. */
  lemma EducationRules(text: string)
    ensures EducationOf(text) == Some(Phd) <==> AnyOccurs(text, PhdKeywords)
    ensures EducationOf(text) == Some(Masters) <==> !AnyOccurs(text, PhdKeywords) && AnyOccurs(text, MastersKeywords)
    ensures EducationOf(text) == Some(Bachelors) <==>
            !AnyOccurs(text, PhdKeywords) && !AnyOccurs(text, MastersKeywords) && AnyOccurs(text, BachelorsKeywords)
    ensures EducationOf(text) == Some(Associates) <==>
            !AnyOccurs(text, PhdKeywords) && !AnyOccurs(text, MastersKeywords) && !AnyOccurs(text, BachelorsKeywords)
            && AnyOccurs(text, AssociatesKeywords)
    ensures EducationOf(text) == None <==>
            !AnyOccurs(text, PhdKeywords) && !AnyOccurs(text, MastersKeywords) && !AnyOccurs(text, BachelorsKeywords)
            && !AnyOccurs(text, AssociatesKeywords)
  {
    var t1 := [(Masters, MastersKeywords), (Bachelors, BachelorsKeywords), (Associates, AssociatesKeywords)];
    var t2 := [(Bachelors, BachelorsKeywords), (Associates, AssociatesKeywords)];
    var t3 := [(Associates, AssociatesKeywords)];
    assert EducationTable[1..] == t1 && t1[1..] == t2 && t2[1..] == t3 && t3[1..] == [];
    assert FirstMatching(t3, text) == if AnyOccurs(text, AssociatesKeywords) then Some(Associates) else None;
    assert FirstMatching(t2, text) == if AnyOccurs(text, BachelorsKeywords) then Some(Bachelors) else FirstMatching(t3, text);
    assert FirstMatching(t1, text) == if AnyOccurs(text, MastersKeywords) then Some(Masters) else FirstMatching(t2, text);
  }

  /** A resume that says "senior" anywhere is senior, whatever junior words it also holds. */
  lemma SeniorWins(text: string)
    requires Contains(text, "senior")
    ensures SeniorityOf(text) == Senior
  {
    assert Contains(text, SeniorKeywords[0]);
    SeniorityRules(text);
  }

  /** `master` is a substring of the certification `scrum master`, so a scrum master certificate reads as a master's degree. */
  lemma ScrumMasterReadsAsMasters(text: string)
    requires Contains(text, "scrum master") && !AnyOccurs(text, PhdKeywords)
    ensures EducationOf(text) == Some(Masters)
  {
    ContainsOccurs(text, "scrum master");
    var i :| OccursAt(text, "scrum master", i);
    assert OccursAt(text, "master", i + 6) by {
      assert text[i + 6..i + 12] == "scrum master"[6..12];
    }
    ContainsOccurs(text, "master");
    assert Contains(text, MastersKeywords[0]);
    EducationRules(text);
  }

  /**
   * `[cert for cert in certifications if cert in text]`: each certification that
   * occurs is kept as often as it is listed, and every other one is dropped.
   */
  function FoundCertifications(certs: seq<string>, text: string): (r: seq<string>)
    ensures |r| <= |certs|
    ensures forall c :: c in r <==> c in certs && Contains(text, c)
    ensures forall c :: multiset(r)[c] == if Contains(text, c) then multiset(certs)[c] else 0
  {
    if certs == [] then []
    else
      var rest := FoundCertifications(certs[..|certs| - 1], text);
      var c := certs[|certs| - 1];
      assert certs == certs[..|certs| - 1] + [c];
      if Contains(text, c) then rest + [c] else rest
  }

  /** Two points per certification, five at most. */
  function CertificationBonus(count: nat): (r: nat)
    ensures r <= 5 && (r == 5 <==> count >= 3) && (count < 3 ==> r == 2 * count)
  {
    if count * 2 < 5 then count * 2 else 5
  }
}
