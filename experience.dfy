/**
 * Years of experience, read from the lowercased resume with three patterns tried
 * in order; the digits the first that matches anywhere captures give the number,
 * else 0. `int()` refuses a capture of more than 4300 digits with ValueError.
 *
 *   YearsOfExperience     (\d+)\+?\s*(?:years?|yrs?)\s+(?:of\s+)?experience
 *   ExperienceThenYears   experience[:\s]+(\d+)\+?\s*(?:years?|yrs?)
 *   BareYears             (\d+)\+?\s*(?:years?|yrs?)
 *
 * Each pattern is matched by hand. None of them ever needs to backtrack: the digit
 * group always takes the whole run of digits (a shorter run would leave a digit
 * where `+`, a space or `y` is needed), and each optional or repeated part is
 * followed by a character it cannot consume. `re.search` is the leftmost position
 * at which the pattern matches.
 */
module Experience {
  import opened Wrappers
  import opened Text
  import opened Json

  datatype Pattern = YearsOfExperience | ExperienceThenYears | BareYears

  /** The source's list order. */
  const Patterns: seq<Pattern> := [YearsOfExperience, ExperienceThenYears, BareYears]

  /** End of the run of digits that starts at `i`. */
  function DigitRunEnd(s: string, i: nat): (j: nat)
    requires i <= |s|
    ensures i <= j <= |s| && AllDigits(s[i..j]) && (j == |s| || !IsDigit(s[j]))
    decreases |s| - i
  {
    if i < |s| && IsDigit(s[i]) then
      var j := DigitRunEnd(s, i + 1);
      assert s[i..j] == [s[i]] + s[i + 1..j];
      j
    else
      i
  }

  /** `\s*`: the index after the whitespace that starts at `i`. */
  function SkipSpaces(s: string, i: nat): (j: nat)
    requires i <= |s|
    ensures i <= j <= |s| && (j == |s| || !IsSpace(s[j]))
    ensures forall k :: i <= k < j ==> IsSpace(s[k])
    decreases |s| - i
  {
    if i < |s| && IsSpace(s[i]) then SkipSpaces(s, i + 1) else i
  }

  /** `[:\s]*`: the index after the colons and whitespace that start at `i`. */
  function SkipColonsSpaces(s: string, i: nat): (j: nat)
    requires i <= |s|
    ensures i <= j <= |s| && (j == |s| || !(s[j] == ':' || IsSpace(s[j])))
    decreases |s| - i
  {
    if i < |s| && (s[i] == ':' || IsSpace(s[i])) then SkipColonsSpaces(s, i + 1) else i
  }

  /** `\+?` */
  function SkipPlus(s: string, i: nat): (j: nat)
    requires i <= |s|
    ensures i <= j <= |s|
  {
    if i < |s| && s[i] == '+' then i + 1 else i
  }

  /** `(?:years?|yrs?)` taken greedily: the index after the unit word at `i`, if there is one. */
  function UnitEnd(s: string, i: nat): (r: Option<nat>)
    requires i <= |s|
    ensures r.Some? ==> i < r.value <= |s|
  {
    if OccursAt(s, "year", i) then Some(if OccursAt(s, "s", i + 4) then i + 5 else i + 4)
    else if OccursAt(s, "yr", i) then Some(if OccursAt(s, "s", i + 2) then i + 3 else i + 2)
    else None
  }

  /** `(\d+)\+?\s*(?:years?|yrs?)` at `i`: the captured digits and the index after the unit. */
  function CountAndUnit(s: string, i: nat): (r: Option<(string, nat)>)
    requires i <= |s|
    ensures r.Some? ==> i < r.value.1 <= |s| && r.value.0 != [] && AllDigits(r.value.0)
  {
    if i < |s| && IsDigit(s[i]) then
      var d := DigitRunEnd(s, i);
      var w := SkipSpaces(s, SkipPlus(s, d));
      match UnitEnd(s, w)
      case None => None
      case Some(u) => Some((s[i..d], u))
    else
      None
  }

  /** The digits pattern `p` captures (`match.group(1)`) when it matches at position `i`. */
  function MatchAt(p: Pattern, s: string, i: nat): (r: Option<string>)
    requires i <= |s|
    ensures r.Some? ==> r.value != [] && AllDigits(r.value)
  {
    match p
    case BareYears =>
      (match CountAndUnit(s, i)
       case None => None
       case Some(r) => Some(r.0))
    case YearsOfExperience =>
      (match CountAndUnit(s, i)
       case None => None
       case Some(r) =>
        var w := SkipSpaces(s, r.1);
        if w == r.1 then None
        else if OccursAt(s, "experience", w) then Some(r.0)
        else if OccursAt(s, "of", w) && w + 2 < SkipSpaces(s, w + 2)
                && OccursAt(s, "experience", SkipSpaces(s, w + 2)) then Some(r.0)
        else None)
    case ExperienceThenYears =>
      if OccursAt(s, "experience", i) then
        var j := SkipColonsSpaces(s, i + 10);
        if j == i + 10 then None
        else match CountAndUnit(s, j)
          case None => None
          case Some(r) => Some(r.0)
      else
        None
  }

  /** The outcome of matching `p` at every position of `s`. */
  function Outcomes(p: Pattern, s: string): (r: seq<Option<string>>)
    ensures |r| == |s| && forall j :: 0 <= j < |s| ==> r[j] == MatchAt(p, s, j)
  {
    seq(|s|, j requires 0 <= j < |s| => MatchAt(p, s, j))
  }

  /** The first outcome from index `i` on that is a match. */
  function FirstFrom(m: seq<Option<string>>, i: nat): (r: Option<string>)
    requires i <= |m|
    ensures (forall j :: i <= j < |m| && m[j].Some? ==> m[j].value != [] && AllDigits(m[j].value))
            ==> (r.Some? ==> r.value != [] && AllDigits(r.value))
    decreases |m| - i
  {
    if i == |m| then None
    else if m[i].Some? then m[i]
    else FirstFrom(m, i + 1)
  }

  /** `re.search`: the capture of the leftmost match. */
  function Search(p: Pattern, s: string): (r: Option<string>)
    ensures r.Some? ==> r.value != [] && AllDigits(r.value)
  {
    FirstFrom(Outcomes(p, s), 0)
  }

  /** The scan finds nothing exactly when nothing matches, and otherwise reports the leftmost match. */
  lemma {:induction false} FirstFromLeftmost(m: seq<Option<string>>, i: nat)
    requires i <= |m|
    ensures FirstFrom(m, i).None? <==> forall j :: i <= j < |m| ==> m[j].None?
    ensures forall j :: i <= j < |m| && m[j].Some? && (forall k :: i <= k < j ==> m[k].None?)
                        ==> FirstFrom(m, i) == m[j]
    decreases |m| - i
  {
    if i < |m| {
      FirstFromLeftmost(m, i + 1);
      forall j | i <= j < |m| && m[j].Some? && (forall k :: i <= k < j ==> m[k].None?)
        ensures FirstFrom(m, i) == m[j]
      {
        if j > i {
          assert m[i].None?;
        }
      }
    }
  }

  /** `Search` in terms of positions: nothing is found exactly when no position matches, else the leftmost match wins. */
  lemma SearchLeftmost(p: Pattern, s: string)
    ensures Search(p, s).None? <==> forall j :: 0 <= j < |s| ==> MatchAt(p, s, j).None?
    ensures forall j :: 0 <= j < |s| && MatchAt(p, s, j).Some? && (forall k :: 0 <= k < j ==> MatchAt(p, s, k).None?)
                        ==> Search(p, s) == MatchAt(p, s, j)
  {
    FirstFromLeftmost(Outcomes(p, s), 0);
  }

  /** Whatever the first pattern matches, the bare pattern matches at the same place with the same number. */
  lemma FirstImpliesBare(s: string, i: nat)
    requires i <= |s| && MatchAt(YearsOfExperience, s, i).Some?
    ensures MatchAt(BareYears, s, i) == MatchAt(YearsOfExperience, s, i)
  {
  }

  /** A match of the second pattern contains a bare match, at the digits, with the same number. */
  lemma SecondImpliesBare(s: string, i: nat) returns (j: nat)
    requires i <= |s| && MatchAt(ExperienceThenYears, s, i).Some?
    ensures i < j <= |s| && MatchAt(BareYears, s, j) == MatchAt(ExperienceThenYears, s, i)
  {
    assert OccursAt(s, "experience", i);
    j := SkipColonsSpaces(s, i + 10);
  }

  /** The capture of the first pattern (in `ps` order) that matches anywhere. */
  function CaptureFrom(ps: seq<Pattern>, s: string): (r: Option<string>)
    ensures r.Some? ==> r.value != [] && AllDigits(r.value)
  {
    if ps == [] then None
    else match Search(ps[0], s)
      case Some(d) => Some(d)
      case None => CaptureFrom(ps[1..], s)
  }

  /** The number that capture denotes; 0 when no pattern matches. */
  function YearsFrom(ps: seq<Pattern>, s: string): nat {
    match CaptureFrom(ps, s)
    case None => 0
    case Some(d) => DigitsValue(d)
  }

  /** The capture `int()` refuses: the first matching pattern captured more than `MaxStrDigits` digits. */
  predicate YearsTooLong(s: string) {
    CaptureFrom(Patterns, s).Some? && |CaptureFrom(Patterns, s).value| > MaxStrDigits
  }

  /**
   * `experience_years` after the detection loop: `int()` of the first capture,
   * 0 when nothing matches, and ValueError exactly when the capture is too long.
   */
  function YearsResult(s: string): (r: Result<nat, PyError>)
    ensures r.Err? <==> YearsTooLong(s)
    ensures r.Err? ==> r.error == ValueError
    ensures r.Ok? ==> r.value == YearsFrom(Patterns, s)
  {
    match CaptureFrom(Patterns, s)
    case None => Ok(0)
    case Some(d) =>
      match DigitsInt(d)
      case None => Err(ValueError)
      case Some(n) => Ok(n)
  }

  /** The patterns are tried in list order: a specific phrasing beats any bare `<N> years` elsewhere in the text. */
  lemma CaptureOrder(s: string)
    ensures Search(YearsOfExperience, s).Some? ==> CaptureFrom(Patterns, s) == Search(YearsOfExperience, s)
    ensures Search(YearsOfExperience, s).None? && Search(ExperienceThenYears, s).Some?
            ==> CaptureFrom(Patterns, s) == Search(ExperienceThenYears, s)
    ensures Search(YearsOfExperience, s).None? && Search(ExperienceThenYears, s).None?
            ==> CaptureFrom(Patterns, s) == Search(BareYears, s)
  {
    assert Patterns[1..] == [ExperienceThenYears, BareYears] && Patterns[1..][1..] == [BareYears];
    assert CaptureFrom([BareYears][1..], s) == None;
    assert CaptureFrom([BareYears], s) == Search(BareYears, s);
  }

  /** When even the bare `<N> years` pattern finds nothing, the years are 0. */
  lemma NoBareMatchNoYears(s: string)
    requires Search(BareYears, s).None?
    ensures YearsResult(s) == Ok(0)
  {
    SearchLeftmost(BareYears, s);
    SearchLeftmost(YearsOfExperience, s);
    SearchLeftmost(ExperienceThenYears, s);
    if Search(YearsOfExperience, s).Some? {
      var i :| 0 <= i < |s| && MatchAt(YearsOfExperience, s, i).Some?;
      FirstImpliesBare(s, i);
    } else if Search(ExperienceThenYears, s).Some? {
      var i :| 0 <= i < |s| && MatchAt(ExperienceThenYears, s, i).Some?;
      var j := SecondImpliesBare(s, i);
    }
    CaptureOrder(s);
  }

  /** The phrase that follows the digits in `LongRunRaises`. */
  const YearsExperience: string := " years experience"

  /** Where the words of `YearsExperience` sit. */
  lemma YearsExperienceLayout()
    ensures |YearsExperience| == 17 && IsSpace(YearsExperience[0]) && IsSpace(YearsExperience[6])
    ensures !IsSpace(YearsExperience[1]) && !IsSpace(YearsExperience[7])
    ensures !IsDigit(YearsExperience[0]) && YearsExperience[0] != '+'
    ensures OccursAt(YearsExperience, "year", 1) && OccursAt(YearsExperience, "s", 5)
    ensures OccursAt(YearsExperience, "experience", 7)
  {
    assert YearsExperience == " years " + "experience";
  }

  /**
   * A resume that opens with a run of more than 4300 digits followed by
   * " years experience" makes `int()` raise: the first pattern matches at the
   * very start and captures the whole run.
   */
  lemma LongRunRaises(d: string)
    requires AllDigits(d) && |d| > MaxStrDigits
    ensures YearsResult(d + YearsExperience) == Err(ValueError)
  {
    RunMatches(d);
    MatchAtStart(d + YearsExperience);
  }

  /** The first pattern matches `d + YearsExperience` at the start and captures `d`. */
  lemma RunMatches(d: string)
    requires d != [] && AllDigits(d)
    ensures MatchAt(YearsOfExperience, d + YearsExperience, 0) == Some(d)
  {
    RunThenYears(d);
    RunThenExperience(d);
    FirstPatternAt(d + YearsExperience, 0, d, |d| + 6);
  }

  /** A first-pattern match at the very start is the capture the detection uses. */
  lemma MatchAtStart(s: string)
    requires MatchAt(YearsOfExperience, s, 0).Some?
    ensures CaptureFrom(Patterns, s) == MatchAt(YearsOfExperience, s, 0)
  {
    SearchLeftmost(YearsOfExperience, s);
    CaptureOrder(s);
  }

  /** `<N> years experience` at `i`: the first pattern matches there and captures `N`. */
  lemma FirstPatternAt(s: string, i: nat, d: string, u: nat)
    requires i <= |s| && CountAndUnit(s, i) == Some((d, u))
    requires SkipSpaces(s, u) == u + 1 && OccursAt(s, "experience", u + 1)
    ensures MatchAt(YearsOfExperience, s, i) == Some(d)
  {
  }

  /** In `d + YearsExperience`, the count and unit at the start capture all of `d`. */
  lemma RunThenYears(d: string)
    requires d != [] && AllDigits(d)
    ensures CountAndUnit(d + YearsExperience, 0) == Some((d, |d| + 6))
  {
    var s := d + YearsExperience;
    var n := |d|;
    RunThenSpace(d);
    RunThenUnit(d);
    assert s[0] == d[0] && s[0..n] == d;
  }

  /** In `d + YearsExperience`, the digits end at `|d|` and one space follows. */
  lemma RunThenSpace(d: string)
    requires AllDigits(d)
    ensures var s, n := d + YearsExperience, |d|;
            DigitRunEnd(s, 0) == n && SkipPlus(s, n) == n && SkipSpaces(s, n) == n + 1
  {
    var t := YearsExperience;
    var s := d + t;
    var n := |d|;
    YearsExperienceLayout();
    assert s[n] == t[0] && s[n + 1] == t[1];
    DigitRunEndOf(s, 0, n);
    SkipOneSpace(s, n);
  }

  /** In `d + YearsExperience`, the unit "years" runs from `|d| + 1` to `|d| + 6`. */
  lemma RunThenUnit(d: string)
    ensures UnitEnd(d + YearsExperience, |d| + 1) == Some(|d| + 6)
  {
    YearsExperienceLayout();
    OccursAfter(d, YearsExperience, "year", 1);
    OccursAfter(d, YearsExperience, "s", 5);
  }

  /** In `d + YearsExperience`, one space and then "experience" follow the unit. */
  lemma RunThenExperience(d: string)
    ensures var s, n := d + YearsExperience, |d|;
            SkipSpaces(s, n + 6) == n + 7 && OccursAt(s, "experience", n + 7)
  {
    var t := YearsExperience;
    var s := d + t;
    var n := |d|;
    YearsExperienceLayout();
    assert s[n + 6] == t[6] && s[n + 7] == t[7];
    SkipOneSpace(s, n + 6);
    OccursAfter(d, t, "experience", 7);
  }

  /** `\s*` over a single whitespace character. */
  lemma SkipOneSpace(s: string, i: nat)
    requires i + 1 < |s| && IsSpace(s[i]) && !IsSpace(s[i + 1])
    ensures SkipSpaces(s, i) == i + 1
  {
  }

  /** Text found in `t` at `k` is found in `d + t` at `|d| + k`. */
  lemma OccursAfter(d: string, t: string, w: string, k: nat)
    requires OccursAt(t, w, k)
    ensures OccursAt(d + t, w, |d| + k)
  {
    assert (d + t)[|d| + k..|d| + k + |w|] == t[k..k + |w|];
  }

  /** A run of digits from `i` to a non-digit (or the end) at `e` ends at `e`. */
  lemma {:induction false} DigitRunEndOf(s: string, i: nat, e: nat)
    requires i <= e <= |s| && (forall k :: i <= k < e ==> IsDigit(s[k])) && (e == |s| || !IsDigit(s[e]))
    ensures DigitRunEnd(s, i) == e
    decreases e - i
  {
    if i < e {
      DigitRunEndOf(s, i + 1, e);
    }
  }

  /**
   * The detection loop: try each pattern in order and stop at the first that
   * matches, converting its capture with `int()`, which raises past the digit
   * limit. The result is exactly `YearsResult`.
   */
  method ExperienceYears(s: string) returns (r: Result<nat, PyError>)
    ensures r == YearsResult(s)
  {
    r := Ok(0);
    var patterns := Patterns;
    for k := 0 to |patterns|
      invariant forall j :: 0 <= j < k ==> Search(patterns[j], s).None?
      invariant CaptureFrom(patterns, s) == CaptureFrom(patterns[k..], s)
      invariant r == Ok(0)
    {
      var found := Search(patterns[k], s);
      if found.Some? {
        var years := DigitsInt(found.value);
        r := if years.Some? then Ok(years.value) else Err(ValueError);
        break;
      }
      assert patterns[k..][1..] == patterns[k + 1..];
    }
  }
}
