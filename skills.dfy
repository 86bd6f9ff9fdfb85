/**
 * Weighted skill matching of the keyword engine: every taxonomy term found in the
 * job text adds its weight to the total; if the resume has it too, the weight is
 * also matched and the term is a strength, otherwise it is a gap. Both texts are
 * already lowercased here.
 */
module Skills {
  import opened Text
  import opened Taxonomy

  /** Entries whose term occurs in the job text, in visiting order. */
  function Required(es: seq<Entry>, job: string): seq<Entry> {
    if es == [] then []
    else
      var e := es[|es| - 1];
      Required(es[..|es| - 1], job) + (if Contains(job, e.term) then [e] else [])
  }

  /** Required entries that the resume also contains: the strengths. */
  function Matched(es: seq<Entry>, job: string, resume: string): seq<Entry> {
    if es == [] then []
    else
      var e := es[|es| - 1];
      Matched(es[..|es| - 1], job, resume)
        + (if Contains(job, e.term) && Contains(resume, e.term) then [e] else [])
  }

  /** Required entries that the resume lacks: the gaps. */
  function Missing(es: seq<Entry>, job: string, resume: string): seq<Entry> {
    if es == [] then []
    else
      var e := es[|es| - 1];
      Missing(es[..|es| - 1], job, resume)
        + (if Contains(job, e.term) && !Contains(resume, e.term) then [e] else [])
  }

  function WeightOf(es: seq<Entry>): nat {
    if es == [] then 0 else WeightOf(es[..|es| - 1]) + es[|es| - 1].weight
  }

  lemma {:induction false} WeightOfAppend(a: seq<Entry>, b: seq<Entry>)
    ensures WeightOf(a + b) == WeightOf(a) + WeightOf(b)
    decreases |b|
  {
    if b == [] {
      assert a + b == a;
    } else {
      assert (a + b)[..|a + b| - 1] == a + b[..|b| - 1];
      assert (a + b)[|a + b| - 1] == b[|b| - 1];
      WeightOfAppend(a, b[..|b| - 1]);
    }
  }

  /** Visiting a term that the job contains adds it to the required list and to exactly one of strengths and gaps. */
  lemma SnocRequired(es: seq<Entry>, e: Entry, job: string, resume: string)
    requires Contains(job, e.term)
    ensures Required(es + [e], job) == Required(es, job) + [e]
    ensures Contains(resume, e.term) ==> Matched(es + [e], job, resume) == Matched(es, job, resume) + [e]
    ensures Contains(resume, e.term) ==> Missing(es + [e], job, resume) == Missing(es, job, resume)
    ensures !Contains(resume, e.term) ==> Matched(es + [e], job, resume) == Matched(es, job, resume)
    ensures !Contains(resume, e.term) ==> Missing(es + [e], job, resume) == Missing(es, job, resume) + [e]
  {
    assert (es + [e])[..|es|] == es;
  }

  /** Appending one entry adds its weight. */
  lemma WeightOfSnoc(es: seq<Entry>, e: Entry)
    ensures WeightOf(es + [e]) == WeightOf(es) + e.weight
  {
    assert (es + [e])[..|es|] == es;
  }

  lemma AppendAssoc<T>(a: seq<T>, b: seq<T>, c: seq<T>)
    ensures a + (b + c) == (a + b) + c
  {
  }

  /** A term the job text does not contain changes nothing. */
  lemma SnocIgnored(es: seq<Entry>, e: Entry, job: string, resume: string)
    requires !Contains(job, e.term)
    ensures Required(es + [e], job) == Required(es, job)
    ensures Matched(es + [e], job, resume) == Matched(es, job, resume)
    ensures Missing(es + [e], job, resume) == Missing(es, job, resume)
  {
    assert (es + [e])[..|es|] == es;
  }

  /**
   * A required term is either matched or missing, never both: the total weight is
   * exactly the matched weight plus the missing weight, so the matched weight never
   * exceeds the total.
   */
  lemma {:induction false} Partition(es: seq<Entry>, job: string, resume: string)
    ensures WeightOf(Matched(es, job, resume)) + WeightOf(Missing(es, job, resume)) == WeightOf(Required(es, job))
    ensures |Matched(es, job, resume)| + |Missing(es, job, resume)| == |Required(es, job)|
  {
    if es != [] {
      var init, e := es[..|es| - 1], es[|es| - 1];
      Partition(init, job, resume);
      var m, x, q := Matched(init, job, resume), Missing(init, job, resume), Required(init, job);
      var om := if Contains(job, e.term) && Contains(resume, e.term) then [e] else [];
      var ox := if Contains(job, e.term) && !Contains(resume, e.term) then [e] else [];
      var oq := if Contains(job, e.term) then [e] else [];
      WeightOfAppend(m, om);
      WeightOfAppend(x, ox);
      WeightOfAppend(q, oq);
    }
  }

  /** Every term the job asks for is in the resume: matched and required weights agree. */
  lemma {:induction false} AllPresent(es: seq<Entry>, job: string, resume: string)
    requires forall k :: 0 <= k < |es| && Contains(job, es[k].term) ==> Contains(resume, es[k].term)
    ensures WeightOf(Matched(es, job, resume)) == WeightOf(Required(es, job))
    ensures Missing(es, job, resume) == []
  {
    if es != [] {
      var init := es[..|es| - 1];
      AllPresent(init, job, resume);
    }
    Partition(es, job, resume);
  }

  /** More resume text can only turn gaps into strengths, never the reverse. */
  lemma {:induction false} MatchedMonotone(es: seq<Entry>, job: string, r1: string, r2: string)
    requires forall k :: 0 <= k < |es| && Contains(r1, es[k].term) ==> Contains(r2, es[k].term)
    ensures WeightOf(Matched(es, job, r1)) <= WeightOf(Matched(es, job, r2))
  {
    if es != [] {
      var init, e := es[..|es| - 1], es[|es| - 1];
      MatchedMonotone(init, job, r1, r2);
      var o1 := if Contains(job, e.term) && Contains(r1, e.term) then [e] else [];
      var o2 := if Contains(job, e.term) && Contains(r2, e.term) then [e] else [];
      WeightOfAppend(Matched(init, job, r1), o1);
      WeightOfAppend(Matched(init, job, r2), o2);
    }
  }

  /** No entry of positive weight occurs in the job text exactly when the total weight is zero. */
  lemma {:induction false} TotalZero(es: seq<Entry>, job: string)
    requires forall k :: 0 <= k < |es| ==> es[k].weight > 0
    ensures WeightOf(Required(es, job)) == 0 <==> forall k :: 0 <= k < |es| ==> !Contains(job, es[k].term)
  {
    if es != [] {
      var init, e := es[..|es| - 1], es[|es| - 1];
      TotalZero(init, job);
      WeightOfAppend(Required(init, job), if Contains(job, e.term) then [e] else []);
      if forall k :: 0 <= k < |init| ==> !Contains(job, init[k].term) {
        if !Contains(job, e.term) {
          forall k | 0 <= k < |es| ensures !Contains(job, es[k].term) {
            if k < |init| { assert es[k] == init[k]; }
          }
        }
      } else {
        var k :| 0 <= k < |init| && Contains(job, init[k].term);
        assert es[k] == init[k];
      }
    }
  }

  /**
   * The skill subscore: `int(matched / total * 60)` when some term is required,
   * otherwise the fixed 45. With weights in tenths this is the floor of
   * matched * 60 / total.
   */
  function SkillScore(total: nat, matched: nat): (r: int)
    ensures total == 0 ==> r == 45
    ensures total > 0 ==> r * total <= matched * 60 < (r + 1) * total
    ensures matched <= total ==> 0 <= r <= 60
    ensures 0 < total == matched ==> r == 60
  {
    if total > 0 then
      ScaledFloor(matched, total);
      (matched * 60) / total
    else
      45
  }

  lemma ScaledFloor(m: nat, t: nat)
    requires t > 0
    ensures (m * 60 / t) * t <= m * 60 < (m * 60 / t + 1) * t
    ensures m <= t ==> 0 <= m * 60 / t <= 60
    ensures m == t ==> m * 60 / t == 60
  {
    var q := m * 60 / t;
    DivFloor(m * 60, t);
    if m <= t {
      assert q * t < 61 * t;
      MulCancel(q, 61, t);
    }
    if m == t {
      assert 60 * t < (q + 1) * t;
      MulCancel(60, q + 1, t);
    }
  }

  lemma DivFloor(n: nat, t: nat)
    requires t > 0
    ensures 0 <= n / t && (n / t) * t <= n < (n / t + 1) * t
  {
    var q, m := n / t, n % t;
    assert n == t * q + m && 0 <= m < t;
    assert (q + 1) * t == q * t + t;
  }

  /** A larger matched weight over the same total never lowers the subscore. */
  lemma SkillScoreMonotone(total: nat, m1: nat, m2: nat)
    requires m1 <= m2
    ensures SkillScore(total, m1) <= SkillScore(total, m2)
  {
    if total > 0 {
      var r1, r2 := SkillScore(total, m1), SkillScore(total, m2);
      assert r1 * total < (r2 + 1) * total;
      MulCancel(r1, r2 + 1, total);
    }
  }

  lemma MulCancel(a: int, b: int, t: int)
    requires t > 0 && a * t < b * t
    ensures a < b
  {
    assert (b - a) * t == b * t - a * t;
  }

  /** The subscore of a (lowercased) resume against a (lowercased) job text. */
  function Subscore(job: string, resume: string): int {
    var es := Flatten(Categories);
    SkillScore(WeightOf(Required(es, job)), WeightOf(Matched(es, job, resume)))
  }

  lemma TaxonomyWeightsPositive()
    ensures forall k :: 0 <= k < |Flatten(Categories)| ==> 10 <= Flatten(Categories)[k].weight <= 15
  {
    CategoryWeights();
    FlattenWeights(Categories);
  }

  /** The subscore is 45 when no taxonomy term occurs in the job text, and in 0..60 otherwise. */
  lemma SubscoreRange(job: string, resume: string)
    ensures 0 <= Subscore(job, resume) <= 60
    ensures (forall k :: 0 <= k < |Flatten(Categories)| ==> !Contains(job, Flatten(Categories)[k].term))
            <==> WeightOf(Required(Flatten(Categories), job)) == 0
    ensures WeightOf(Required(Flatten(Categories), job)) == 0 ==> Subscore(job, resume) == 45
  {
    var es := Flatten(Categories);
    Partition(es, job, resume);
    TaxonomyWeightsPositive();
    TotalZero(es, job);
  }

  /** A resume holding every term the job asks for gets the full 60, or 45 when the job asks for none. */
  lemma SubscoreFullMatch(job: string, resume: string)
    requires forall k :: 0 <= k < |Flatten(Categories)| && Contains(job, Flatten(Categories)[k].term)
                         ==> Contains(resume, Flatten(Categories)[k].term)
    ensures WeightOf(Required(Flatten(Categories), job)) > 0 ==> Subscore(job, resume) == 60
    ensures WeightOf(Required(Flatten(Categories), job)) == 0 ==> Subscore(job, resume) == 45
  {
    AllPresent(Flatten(Categories), job, resume);
  }

  /** Appending text to the resume never lowers the skill subscore. */
  lemma SubscoreMonotone(job: string, resume: string, extra: string)
    ensures Subscore(Lower(job), Lower(resume)) <= Subscore(Lower(job), Lower(resume + extra))
  {
    var es := Flatten(Categories);
    LowerAppend(resume, extra);
    forall k | 0 <= k < |es| && Contains(Lower(resume), es[k].term)
      ensures Contains(Lower(resume + extra), es[k].term)
    {
      ContainsExtend([], Lower(resume), Lower(extra), es[k].term);
      assert [] + Lower(resume) + Lower(extra) == Lower(resume + extra);
    }
    MatchedMonotone(es, Lower(job), Lower(resume), Lower(resume + extra));
    SkillScoreMonotone(WeightOf(Required(es, Lower(job))),
      WeightOf(Matched(es, Lower(job), Lower(resume))), WeightOf(Matched(es, Lower(job), Lower(resume + extra))));
  }

  lemma {:induction false} AppendDistributes(a: seq<Entry>, b: seq<Entry>, job: string, resume: string)
    ensures Required(a + b, job) == Required(a, job) + Required(b, job)
    ensures Matched(a + b, job, resume) == Matched(a, job, resume) + Matched(b, job, resume)
    ensures Missing(a + b, job, resume) == Missing(a, job, resume) + Missing(b, job, resume)
    decreases |b|
  {
    if b == [] {
      assert a + b == a;
    } else {
      var init, e := b[..|b| - 1], b[|b| - 1];
      assert (a + b)[..|a + b| - 1] == a + init;
      assert (a + b)[|a + b| - 1] == e;
      AppendDistributes(a, init, job, resume);
      AppendAssoc(Required(a, job), Required(init, job), if Contains(job, e.term) then [e] else []);
      AppendAssoc(Matched(a, job, resume), Matched(init, job, resume),
                  if Contains(job, e.term) && Contains(resume, e.term) then [e] else []);
      AppendAssoc(Missing(a, job, resume), Missing(init, job, resume),
                  if Contains(job, e.term) && !Contains(resume, e.term) then [e] else []);
    }
  }

  /**
   * The nested scoring loop: categories in order, terms in order, accumulating
   * the total and matched weights and the strength and gap lists.
   */
  method MatchSkills(cats: seq<Category>, job: string, resume: string)
    returns (matched: seq<Entry>, missing: seq<Entry>, total: nat, matchedWeight: nat)
    ensures matched == Matched(Flatten(cats), job, resume)
    ensures missing == Missing(Flatten(cats), job, resume)
    ensures total == WeightOf(Required(Flatten(cats), job))
    ensures matchedWeight == WeightOf(matched) && matchedWeight <= total
  {
    matched, missing, total, matchedWeight := [], [], 0, 0;
    for c := 0 to |cats|
      invariant matched == Matched(Flatten(cats[..c]), job, resume)
      invariant missing == Missing(Flatten(cats[..c]), job, resume)
      invariant total == WeightOf(Required(Flatten(cats[..c]), job))
      invariant matchedWeight == WeightOf(matched)
    {
      ghost var before := Flatten(cats[..c]);
      ghost var required := Required(before, job);
      matched, missing, total, matchedWeight :=
        ScanCategory(cats[c], job, resume, matched, missing, total, matchedWeight, required);
      assert cats[..c + 1] == cats[..c] + [cats[c]];
      FlattenSnoc(cats[..c], cats[c]);
      AppendDistributes(before, TermEntries(cats[c]), job, resume);
      WeightOfAppend(required, Required(TermEntries(cats[c]), job));
    }
    assert cats[..|cats|] == cats;
    Partition(Flatten(cats), job, resume);
  }

  /**
   * The inner loop over one category's terms. It continues the accumulators it is
   * given (`required0` is the ghost list of required entries seen so far).
   */
  method ScanCategory(cat: Category, job: string, resume: string,
                      matched0: seq<Entry>, missing0: seq<Entry>, total0: nat, matchedWeight0: nat,
                      ghost required0: seq<Entry>)
    returns (matched: seq<Entry>, missing: seq<Entry>, total: nat, matchedWeight: nat)
    requires total0 == WeightOf(required0) && matchedWeight0 == WeightOf(matched0)
    ensures matched == matched0 + Matched(TermEntries(cat), job, resume)
    ensures missing == missing0 + Missing(TermEntries(cat), job, resume)
    ensures total == WeightOf(required0 + Required(TermEntries(cat), job))
    ensures matchedWeight == WeightOf(matched)
  {
    matched, missing, total, matchedWeight := matched0, missing0, total0, matchedWeight0;
    ghost var required := required0;
    assert cat.terms[..0] == [];
    for k := 0 to |cat.terms|
      invariant matched == matched0 + Matched(Entries(cat.terms[..k], cat.weight), job, resume)
      invariant missing == missing0 + Missing(Entries(cat.terms[..k], cat.weight), job, resume)
      invariant required == required0 + Required(Entries(cat.terms[..k], cat.weight), job)
      invariant total == WeightOf(required) && matchedWeight == WeightOf(matched)
    {
      ghost var seen := Entries(cat.terms[..k], cat.weight);
      EntriesSnoc(cat.terms, cat.weight, k);
      matched, missing, total, matchedWeight, required :=
        VisitTerm(Entry(cat.terms[k], cat.weight), job, resume, matched, missing, total, matchedWeight,
                  required, seen, matched0, missing0, required0);
    }
    assert cat.terms[..|cat.terms|] == cat.terms;
  }

  /** The body of the inner loop: one term, checked against the job and then the resume. */
  method VisitTerm(e: Entry, job: string, resume: string,
                   matched0: seq<Entry>, missing0: seq<Entry>, total0: nat, matchedWeight0: nat,
                   ghost required0: seq<Entry>, ghost seen: seq<Entry>,
                   ghost m: seq<Entry>, ghost x: seq<Entry>, ghost q: seq<Entry>)
    returns (matched: seq<Entry>, missing: seq<Entry>, total: nat, matchedWeight: nat, ghost required: seq<Entry>)
    requires matched0 == m + Matched(seen, job, resume) && missing0 == x + Missing(seen, job, resume)
    requires required0 == q + Required(seen, job)
    requires total0 == WeightOf(required0) && matchedWeight0 == WeightOf(matched0)
    ensures matched == m + Matched(seen + [e], job, resume) && missing == x + Missing(seen + [e], job, resume)
    ensures required == q + Required(seen + [e], job)
    ensures total == WeightOf(required) && matchedWeight == WeightOf(matched)
  {
    matched, missing, total, matchedWeight, required := matched0, missing0, total0, matchedWeight0, required0;
    if Contains(job, e.term) {
      SnocRequired(seen, e, job, resume);
      AppendAssoc(q, Required(seen, job), [e]);
      WeightOfSnoc(required, e);
      required := required + [e];
      total := total + e.weight;
      if Contains(resume, e.term) {
        AppendAssoc(m, Matched(seen, job, resume), [e]);
        WeightOfSnoc(matched, e);
        matched := matched + [e];
        matchedWeight := matchedWeight + e.weight;
      } else {
        AppendAssoc(x, Missing(seen, job, resume), [e]);
        missing := missing + [e];
      }
    } else {
      SnocIgnored(seen, e, job, resume);
    }
  }
}
