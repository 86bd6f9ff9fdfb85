/**
 * Cleaning of model replies before JSON decoding: markdown code fences are
 * removed, surrounding whitespace is stripped, and the JSON object is taken as
 * the span from the first `{` to the last `}`.
 */
module Cleaning {
  import opened Wrappers
  import opened Text

  /** Three backticks start at `i`. */
  predicate FenceAt(s: string, i: int) {
    0 <= i && i + 3 <= |s| && s[i] == '`' && s[i + 1] == '`' && s[i + 2] == '`'
  }

  /** No three consecutive backticks anywhere. */
  predicate NoFence(s: string) {
    forall i :: 0 <= i < |s| ==> !FenceAt(s, i)
  }

  /** The index where `(?:json)?\s*` ends, starting right after a fence at `i`. */
  function FenceMatchEnd(s: string, i: nat): (j: nat)
    requires i + 3 <= |s|
    ensures i + 3 <= j <= |s|
  {
    var k := if OccursAt(s, "json", i + 3) then i + 7 else i + 3;
    SpaceRunEnd(s, k)
  }

  function SpaceRunEnd(s: string, k: nat): (j: nat)
    requires k <= |s|
    ensures k <= j <= |s| && (j == |s| || !IsSpace(s[j]))
    decreases |s| - k
  {
    if k < |s| && IsSpace(s[k]) then SpaceRunEnd(s, k + 1) else k
  }

  /** `re.sub(r"```(?:json)?\s*", "", s)`: every match, scanning left to right, is deleted. */
  function StripFences(s: string): string
    decreases |s|
  {
    if s == [] then []
    else if FenceAt(s, 0) then StripFences(s[FenceMatchEnd(s, 0)..])
    else [s[0]] + StripFences(s[1..])
  }

  /** `s.replace("```", "")`: every run of three backticks, scanning left to right, is deleted. */
  function RemoveTicks(s: string): string
    decreases |s|
  {
    if s == [] then []
    else if FenceAt(s, 0) then RemoveTicks(s[3..])
    else [s[0]] + RemoveTicks(s[1..])
  }

  /** `clean_ai_response`: strip fences, drop stray backtick triples, strip whitespace. */
  function CleanAiResponse(text: string): string {
    Strip(RemoveTicks(StripFences(text)))
  }

  /** A leading backtick in the output of `RemoveTicks` comes from a leading backtick in its input. */
  lemma RemoveTicksHead(s: string)
    requires |RemoveTicks(s)| > 0 && RemoveTicks(s)[0] == '`'
    ensures |s| > 0 && s[0] == '`'
  {
  }

  lemma NoFenceCons(c: char, x: string)
    requires NoFence(x)
    requires !(c == '`' && |x| >= 2 && x[0] == '`' && x[1] == '`')
    ensures NoFence([c] + x)
  {
    forall i | 0 <= i < |[c] + x|
      ensures !FenceAt([c] + x, i)
    {
      if i > 0 {
        assert !FenceAt(x, i - 1);
      }
    }
  }

  /** After `replace("```", "")` no backtick triple is left, not even one formed by the deletion. */
  lemma {:induction false} RemoveTicksNoFence(s: string)
    ensures NoFence(RemoveTicks(s))
    decreases |s|
  {
    if s == [] {
    } else if FenceAt(s, 0) {
      RemoveTicksNoFence(s[3..]);
    } else {
      var x := RemoveTicks(s[1..]);
      RemoveTicksNoFence(s[1..]);
      if s[0] == '`' && |x| >= 2 && x[0] == '`' && x[1] == '`' {
        RemoveTicksHead(s[1..]);
        var t := s[1..];
        assert t[0] == '`';
        assert |s| >= 3 ==> s[2] != '`';
        assert !FenceAt(t, 0);
        assert x == [t[0]] + RemoveTicks(t[1..]);
        RemoveTicksHead(t[1..]);
        assert false;
      }
      NoFenceCons(s[0], x);
    }
  }

  lemma NoFenceSlice(s: string, a: nat, b: nat)
    requires NoFence(s) && a <= b <= |s|
    ensures NoFence(s[a..b])
  {
    forall i | 0 <= i < b - a
      ensures !FenceAt(s[a..b], i)
    {
      assert !FenceAt(s, a + i);
    }
  }

  lemma StripNoFence(s: string)
    requires NoFence(s)
    ensures NoFence(Strip(s))
  {
    var l := StripLeft(s);
    NoFenceSlice(s, |s| - |l|, |s|);
    assert s[|s| - |l|..|s|] == s[|s| - |l|..] == l;
    NoFenceSlice(l, 0, |StripRight(l)|);
    assert l[0..|StripRight(l)|] == l[..|StripRight(l)|];
  }

  /** The triple-backtick fence is absent exactly when `"```" in s` is false. */
  lemma NoFenceContains(s: string)
    ensures NoFence(s) <==> !Contains(s, "```")
  {
    ContainsOccurs(s, "```");
    forall i | OccursAt(s, "```", i)
      ensures FenceAt(s, i)
    {
      assert s[i..i + 3][0] == s[i] && s[i..i + 3][1] == s[i + 1] && s[i..i + 3][2] == s[i + 2];
    }
    if !NoFence(s) {
      var i :| 0 <= i < |s| && FenceAt(s, i);
      assert s[i..i + 3] == "```";
      assert OccursAt(s, "```", i);
    }
  }

  /** The cleaned reply holds no "```" and has no whitespace at either end. */
  lemma CleanOutput(text: string)
    ensures !Contains(CleanAiResponse(text), "```")
    ensures var r := CleanAiResponse(text); r == [] || (!IsSpace(r[0]) && !IsSpace(r[|r| - 1]))
  {
    RemoveTicksNoFence(StripFences(text));
    StripNoFence(RemoveTicks(StripFences(text)));
    NoFenceContains(CleanAiResponse(text));
  }

  lemma {:induction false} StripFencesIdentity(s: string)
    requires NoFence(s)
    ensures StripFences(s) == s
    decreases |s|
  {
    if s != [] {
      assert !FenceAt(s, 0);
      NoFenceSlice(s, 1, |s|);
      assert s[1..|s|] == s[1..];
      StripFencesIdentity(s[1..]);
    }
  }

  lemma {:induction false} RemoveTicksIdentity(s: string)
    requires NoFence(s)
    ensures RemoveTicks(s) == s
    decreases |s|
  {
    if s != [] {
      assert !FenceAt(s, 0);
      NoFenceSlice(s, 1, |s|);
      assert s[1..|s|] == s[1..];
      RemoveTicksIdentity(s[1..]);
    }
  }

  /** Cleaning an already cleaned reply changes nothing. */
  lemma CleanIdempotent(text: string)
    ensures CleanAiResponse(CleanAiResponse(text)) == CleanAiResponse(text)
  {
    var c := CleanAiResponse(text);
    CleanOutput(text);
    NoFenceContains(c);
    StripFencesIdentity(c);
    RemoveTicksIdentity(c);
    StripIdentity(c);
  }

  /** Fence removal works through a backtick-free prefix character by character. */
  lemma {:induction false} StripFencesBefore(a: string, b: string)
    requires forall i :: 0 <= i < |a| ==> a[i] != '`'
    ensures StripFences(a + b) == a + StripFences(b)
    decreases |a|
  {
    if a != [] {
      assert !FenceAt(a + b, 0);
      assert (a + b)[1..] == a[1..] + b;
      StripFencesBefore(a[1..], b);
    } else {
      assert a + b == b;
    }
  }

  /** A closing fence on its own line leaves just the line break. */
  lemma ClosingFence()
    ensures StripFences("\n```") == "\n"
  {
    var tail := "\n```";
    assert !FenceAt(tail, 0);
    assert tail[1..] == "```";
    assert FenceAt(tail[1..], 0) && FenceMatchEnd(tail[1..], 0) == 3;
    assert tail[1..][3..] == [];
  }

  /**
   * A reply fenced as a `json` code block, whose body holds no backtick and
   * no whitespace at either end, cleans to exactly its body.
   */
  lemma CleanFencedJson(body: string)
    requires forall i :: 0 <= i < |body| ==> body[i] != '`'
    requires body != [] && !IsSpace(body[0]) && !IsSpace(body[|body| - 1])
    ensures CleanAiResponse("```json\n" + body + "\n```") == body
  {
    var text := "```json\n" + body + "\n```";
    assert FenceAt(text, 0);
    assert text[3..7] == "json";
    assert IsSpace(text[7]) && text[8] == body[0];
    assert SpaceRunEnd(text, 8) == 8;
    assert FenceMatchEnd(text, 0) == 8;
    assert text[8..] == body + "\n```";
    StripFencesBefore(body, "\n```");
    ClosingFence();
    var line := body + "\n";
    assert StripFences(text) == line;
    assert NoFence(line) by {
      forall i | 0 <= i < |line| ensures !FenceAt(line, i) {
        if i < |body| { assert line[i] == body[i]; } else { assert line[i] == '\n'; }
      }
    }
    RemoveTicksIdentity(line);
    assert StripLeft(line) == line;
    assert line[..|line| - 1] == body;
    assert StripRight(line) == body;
  }

  /** The documented example: a fenced JSON reply loses its fence and its newlines. */
  lemma CleanExample()
    ensures CleanAiResponse("```json\n{\"key\": \"value\"}\n```") == "{\"key\": \"value\"}"
  {
    var body := "{\"key\": \"value\"}";
    var text := "```json\n{\"key\": \"value\"}\n```";
    assert text[..8] == "```json\n" && text[8..24] == body && text[24..] == "\n```";
    assert text == text[..8] + text[8..24] + text[24..];
    assert body[0] == '{' && body[|body| - 1] == '}';
    CleanFencedJson(body);
  }

  /** The first index of `c` in `s`, if any. */
  function FirstIndex(s: string, c: char): (r: Option<nat>)
    ensures r.None? <==> forall i :: 0 <= i < |s| ==> s[i] != c
    ensures r.Some? ==> r.value < |s| && s[r.value] == c && forall i :: 0 <= i < r.value ==> s[i] != c
    decreases |s|
  {
    if s == [] then None
    else if s[0] == c then Some(0)
    else match FirstIndex(s[1..], c)
      case None => None
      case Some(k) => Some(k + 1)
  }

  /** The last index of `c` in `s`, if any. */
  function LastIndex(s: string, c: char): (r: Option<nat>)
    ensures r.None? <==> forall i :: 0 <= i < |s| ==> s[i] != c
    ensures r.Some? ==> r.value < |s| && s[r.value] == c && forall i :: r.value < i < |s| ==> s[i] != c
    decreases |s|
  {
    if s == [] then None
    else if s[|s| - 1] == c then Some(|s| - 1)
    else LastIndex(s[..|s| - 1], c)
  }

  /**
   * `re.search(r"\{.*\}", s, re.DOTALL)`: the span from the leftmost `{` to the
   * last `}` after it; no match when no `}` follows any `{`.
   */
  function JsonSpan(s: string): (r: Option<string>)
    ensures r.None? <==> forall i, j :: 0 <= i < j < |s| && s[i] == '{' ==> s[j] != '}'
    ensures r.Some? ==> exists i, j :: 0 <= i < j < |s| && r.value == s[i..j + 1]
                          && s[i] == '{' && s[j] == '}'
                          && (forall k :: 0 <= k < i ==> s[k] != '{')
                          && (forall k :: j < k < |s| ==> s[k] != '}')
  {
    match FirstIndex(s, '{')
    case None => None
    case Some(i) =>
      match LastIndex(s, '}')
      case None => None
      case Some(j) => if i < j then Some(s[i..j + 1]) else None
  }

  /** The extracted span starts with `{` and ends with `}`. */
  lemma JsonSpanBraces(s: string)
    requires JsonSpan(s).Some?
    ensures var r := JsonSpan(s).value; |r| >= 2 && r[0] == '{' && r[|r| - 1] == '}'
  {
  }
}
