/**
 * String primitives with the meaning Python gives them: `t in s`, `s.strip()`,
 * `s.lower()`, `s.title()`, `sep.join(parts)`, `str(n)` and `int(s)`.
 */
module Text {
  import opened Wrappers

  /** Python's `str.isspace()` set, which is also what `\s` matches in a `str` regex. */
  predicate IsSpace(c: char) {
    c == ' ' || ('\t' <= c <= '\r') || ('\U{1c}' <= c <= '\U{1f}') || c == '\U{85}' || c == '\U{a0}'
    || c == '\U{1680}' || ('\U{2000}' <= c <= '\U{200a}') || c == '\U{2028}' || c == '\U{2029}'
    || c == '\U{202f}' || c == '\U{205f}' || c == '\U{3000}'
  }

  predicate IsDigit(c: char) { '0' <= c <= '9' }

  predicate IsLetter(c: char) { ('a' <= c <= 'z') || ('A' <= c <= 'Z') }

  function LowerChar(c: char): char {
    if 'A' <= c <= 'Z' then (c as int + 32) as char else c
  }

  function UpperChar(c: char): char {
    if 'a' <= c <= 'z' then (c as int - 32) as char else c
  }

  /** `s.lower()`. */
  function Lower(s: string): string {
    seq(|s|, i requires 0 <= i < |s| => LowerChar(s[i]))
  }

  lemma LowerAppend(a: string, b: string)
    ensures Lower(a + b) == Lower(a) + Lower(b)
  {
  }

  /** `t` occurs in `s` starting at index `i`. */
  predicate OccursAt(s: string, t: string, i: int) {
    0 <= i && i + |t| <= |s| && s[i..i + |t|] == t
  }

  /** Python's `t in s`: a literal substring test (the empty string occurs everywhere). */
  function Contains(s: string, t: string): bool
    decreases |s|
  {
    if |t| > |s| then false
    else if s[..|t|] == t then true
    else Contains(s[1..], t)
  }

  /** `Contains` agrees with the definition by occurrence positions. */
  lemma {:induction false} ContainsOccurs(s: string, t: string)
    ensures Contains(s, t) <==> exists i :: OccursAt(s, t, i)
    decreases |s|
  {
    if |t| > |s| {
    } else if s[..|t|] == t {
      assert OccursAt(s, t, 0);
    } else {
      ContainsOccurs(s[1..], t);
      if Contains(s[1..], t) {
        var i :| OccursAt(s[1..], t, i);
        assert s[i + 1..i + 1 + |t|] == s[1..][i..i + |t|];
        assert OccursAt(s, t, i + 1);
      } else {
        assert !OccursAt(s, t, 0) by { assert s[0..0 + |t|] == s[..|t|]; }
        forall i | OccursAt(s, t, i) ensures OccursAt(s[1..], t, i - 1) {
          assert i != 0;
          OccursShift(s, t, i);
        }
      }
    }
  }

  lemma OccursShift(s: string, t: string, i: int)
    requires OccursAt(s, t, i) && i > 0
    ensures OccursAt(s[1..], t, i - 1)
  {
    assert s[1..][i - 1..i - 1 + |t|] == s[i..i + |t|];
  }

  /** An occurrence in `s` is still one in any text that extends `s` on either side. */
  lemma ContainsExtend(pre: string, s: string, post: string, t: string)
    requires Contains(s, t)
    ensures Contains(pre + s + post, t)
  {
    ContainsOccurs(s, t);
    var i :| OccursAt(s, t, i);
    assert (pre + s + post)[|pre| + i..|pre| + i + |t|] == s[i..i + |t|];
    assert OccursAt(pre + s + post, t, |pre| + i);
    ContainsOccurs(pre + s + post, t);
  }

  lemma ContainsAppendLeft(pre: string, s: string, t: string)
    requires Contains(s, t)
    ensures Contains(pre + s, t)
  {
    ContainsExtend(pre, s, [], t);
    assert pre + s + [] == pre + s;
  }

  lemma ContainsAppendRight(s: string, post: string, t: string)
    requires Contains(s, t)
    ensures Contains(s + post, t)
  {
    ContainsExtend([], s, post, t);
    assert [] + s + post == s + post;
  }

  /** Every text contains itself. */
  lemma ContainsSelf(t: string)
    ensures Contains(t, t)
  {
    ContainsOccurs(t, t);
    assert OccursAt(t, t, 0);
  }

  /** A text contains each of its prefixes. */
  lemma ContainsPrefix(s: string, p: string)
    requires StartsWith(s, p)
    ensures Contains(s, p)
  {
    ContainsOccurs(s, p);
    assert OccursAt(s, p, 0);
  }

  predicate StartsWith(s: string, p: string) {
    |p| <= |s| && s[..|p|] == p
  }

  /** `s.lstrip()`: drops the whitespace prefix. */
  function StripLeft(s: string): (r: string)
    ensures |r| <= |s| && r == s[|s| - |r|..]
    ensures forall k :: 0 <= k < |s| - |r| ==> IsSpace(s[k])
    ensures r == [] || !IsSpace(r[0])
  {
    if |s| > 0 && IsSpace(s[0]) then StripLeft(s[1..]) else s
  }

  /** `s.rstrip()`: drops the whitespace suffix. */
  function StripRight(s: string): (r: string)
    ensures |r| <= |s| && r == s[..|r|]
    ensures forall k :: |r| <= k < |s| ==> IsSpace(s[k])
    ensures r == [] || !IsSpace(r[|r| - 1])
  {
    if |s| > 0 && IsSpace(s[|s| - 1]) then StripRight(s[..|s| - 1]) else s
  }

  /** `s.strip()`: the text between the leading and the trailing whitespace. */
  function Strip(s: string): (r: string)
    ensures r == [] || (!IsSpace(r[0]) && !IsSpace(r[|r| - 1]))
  {
    var l := StripLeft(s);
    var r := StripRight(l);
    assert r != [] ==> r[0] == l[0];
    r
  }

  /** `strip()` removes only whitespace: its result is the slice `s[a..b]` with nothing but whitespace before `a` and after `b`. */
  lemma StripSlice(s: string) returns (a: nat, b: nat)
    ensures a <= b <= |s| && Strip(s) == s[a..b]
    ensures forall k :: 0 <= k < a ==> IsSpace(s[k])
    ensures forall k :: b <= k < |s| ==> IsSpace(s[k])
  {
    var l := StripLeft(s);
    var r := StripRight(l);
    a := |s| - |l|;
    b := a + |r|;
    assert Strip(s) == r;
    assert l == s[a..];
    assert r == l[..|r|] == s[a..b];
    forall k | b <= k < |s| ensures IsSpace(s[k]) {
      assert s[k] == l[k - a];
    }
  }

  /** Text without whitespace at either end is left alone by `strip()`. */
  lemma StripIdentity(s: string)
    requires s == [] || (!IsSpace(s[0]) && !IsSpace(s[|s| - 1]))
    ensures Strip(s) == s
  {
  }

  /** `sep.join(parts)`. */
  function Join(parts: seq<string>, sep: string): string {
    if parts == [] then ""
    else if |parts| == 1 then parts[0]
    else parts[0] + sep + Join(parts[1..], sep)
  }

  function TitleFrom(s: string, previousCased: bool): string
    decreases |s|
  {
    if s == [] then ""
    else
      var c := s[0];
      var d := if !IsLetter(c) then c else if previousCased then LowerChar(c) else UpperChar(c);
      [d] + TitleFrom(s[1..], IsLetter(c))
  }

  /** `s.title()` on ASCII text: a letter is upper case exactly when the character immediately before it is not a letter. */
  function Title(s: string): string {
    TitleFrom(s, false)
  }

  function DigitChar(d: nat): char
    requires d < 10
  {
    ('0' as int + d) as char
  }

  function DigitValue(c: char): nat
    requires IsDigit(c)
  {
    c as int - '0' as int
  }

  predicate AllDigits(s: string) {
    forall i :: 0 <= i < |s| ==> IsDigit(s[i])
  }

  /** The number a run of decimal digits denotes (leading zeros allowed, as in `int("007")`). */
  function DigitsValue(s: string): nat
    requires AllDigits(s)
  {
    if s == [] then 0 else DigitsValue(s[..|s| - 1]) * 10 + DigitValue(s[|s| - 1])
  }

  /** `str(n)` for a natural number. */
  function NatStr(n: nat): (r: string)
    ensures |r| > 0 && AllDigits(r)
  {
    if n < 10 then [DigitChar(n)] else NatStr(n / 10) + [DigitChar(n % 10)]
  }

  /** `str(i)` for any integer. */
  function IntStr(i: int): string {
    if i < 0 then "-" + NatStr(-i) else NatStr(i)
  }

  lemma {:induction false} NatStrRoundTrip(n: nat)
    ensures DigitsValue(NatStr(n)) == n
  {
    if n >= 10 {
      NatStrRoundTrip(n / 10);
      var s := NatStr(n);
      assert s[..|s| - 1] == NatStr(n / 10);
    }
  }

  /**
   * CPython's limit on decimal conversion (`sys.int_info.default_max_str_digits`):
   * `int()` of a string with more digits, and `str()` of an integer with more
   * digits, raise ValueError.
   */
  const MaxStrDigits: nat := 4300

  /** `int()` of a run of decimal digits: the number it denotes, or `None` (ValueError) past `MaxStrDigits` digits. */
  function DigitsInt(d: string): Option<nat>
    requires AllDigits(d)
  {
    if |d| > MaxStrDigits then None else Some(DigitsValue(d))
  }

  /**
   * Python's `int(s)` on a string: surrounding whitespace, an optional sign,
   * then at most `MaxStrDigits` decimal digits.
   */
  function ParseInt(s: string): (r: Option<int>)
    ensures r.Some? ==> exists k :: 0 <= k < |Strip(s)| && AllDigits(Strip(s)[k..]) && |Strip(s)| - k <= MaxStrDigits
  {
    var t := Strip(s);
    if t == [] then None
    else
      var body := if t[0] == '+' || t[0] == '-' then t[1..] else t;
      if body == [] || !AllDigits(body) then None
      else
        var k := |t| - |body|;
        assert t[k..] == body;
        match DigitsInt(body)
        case None => None
        case Some(n) => var v := n as int; Some(if t[0] == '-' then -v else v)
  }

  /** `int(str(i)) == i` whenever `str(i)` has at most `MaxStrDigits` digits; beyond, `int()` refuses the text. */
  lemma IntStrRoundTrip(i: int)
    ensures ParseInt(IntStr(i)) == if |NatStr(if i < 0 then -i else i)| <= MaxStrDigits then Some(i) else None
  {
    var s := IntStr(i);
    var n: nat := if i < 0 then -i else i;
    NatStrRoundTrip(n);
    var digits := NatStr(n);
    assert IsDigit(digits[0]) && IsDigit(digits[|digits| - 1]);
    if i < 0 {
      assert s[0] == '-' && s[1..] == digits && s[|s| - 1] == digits[|digits| - 1];
    } else {
      assert s == digits;
    }
    StripIdentity(s);
  }
}
