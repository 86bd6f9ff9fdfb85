/**
 * Repair of a decoded Groq reply (`GroqAIClient._parse_json_response`) and the
 * score guardrail the Groq tier applies afterwards.
 *
 * The reply is cleaned, the span from the first `{` to the last `}` is decoded,
 * missing required keys receive defaults, the score is coerced with `int(...)`
 * and clamped to 0..100, and the two list fields are coerced to lists.
 */
module Repair {
  import opened Wrappers
  import opened Text
  import opened Json
  import opened Cleaning

  const ScoreKey: string := "match_score"
  const StrengthsKey: string := "key_strengths"
  const MissingKey: string := "missing_skills"
  const SummaryKey: string := "summary"
  const EmailKey: string := "email_draft"

  const RequiredKeys: set<string> := {ScoreKey, StrengthsKey, MissingKey, SummaryKey, EmailKey}

  /** The two fields that must hold lists, in the order they are coerced. */
  const ListKeys: seq<string> := [StrengthsKey, MissingKey]

  /** The score a missing or unreadable `match_score` receives. */
  const DefaultScore: int := 50

  /** `max(0, min(100, i))` */
  function ClampPercent(i: int): (r: int)
    ensures 0 <= r <= 100
    ensures 0 <= i <= 100 ==> r == i
    ensures i < 0 ==> r == 0
    ensures i > 100 ==> r == 100
  {
    if i < 0 then 0 else if i > 100 then 100 else i
  }

  /** The value a missing required key receives. */
  function DefaultFor(key: string): Value {
    if key == ScoreKey then JInt(DefaultScore)
    else if key == StrengthsKey || key == MissingKey then JArr([])
    else JStr("")
  }

  /** The dictionary once every missing required key has its default. */
  function WithDefaults(d: Dict): Dict {
    map k | k in d.Keys + RequiredKeys :: if k in d then d[k] else DefaultFor(k)
  }

  /**
   * The score after `int(...)` and clamping: an integer that `int` accepts is
   * clamped, a ValueError or TypeError gives 50, and an OverflowError (an
   * infinite float) escapes, since the handler only names the first two.
   */
  function RepairScore(v: Value): (r: Result<Value, PyError>)
    ensures r.Ok? ==> r.value.JInt? && 0 <= r.value.i <= 100
    ensures r.Err? ==> r.error == OverflowError && PyInt(v) == Err(OverflowError)
    ensures PyInt(v).Err? && PyInt(v).error != OverflowError ==> r == Ok(JInt(DefaultScore))
  {
    match PyInt(v)
    case Ok(i) => Ok(JInt(ClampPercent(i)))
    case Err(e) => if e == OverflowError then Err(e) else Ok(JInt(DefaultScore))
  }

  /** A list is kept; any other truthy value becomes a one-element list of its `str`; a falsy one `[]`. */
  function RepairList(v: Value, repr: Value -> string): (r: Value)
    ensures r.JArr?
    ensures v.JArr? ==> r == v
  {
    if v.JArr? then v
    else if Truthy(v) then JArr([JStr(PyStr(v, repr))])
    else JArr([])
  }

  /** The three updates of the repair, on a dictionary that already holds the required keys. */
  function RepairSteps(f: Dict, score: Value, repr: Value -> string): Dict
    requires ScoreKey in f && StrengthsKey in f && MissingKey in f
  {
    var g := f[ScoreKey := score];
    var h := g[StrengthsKey := RepairList(g[StrengthsKey], repr)];
    h[MissingKey := RepairList(h[MissingKey], repr)]
  }

  /** The whole repair of a decoded object. */
  function Repaired(d: Dict, repr: Value -> string): Result<Dict, PyError> {
    var f := WithDefaults(d);
    match RepairScore(f[ScoreKey])
    case Err(e) => Err(e)
    case Ok(score) => Ok(RepairSteps(f, score, repr))
  }

  /**
   * The outcome of `_parse_json_response`. `decode` stands for `json.loads` on
   * the extracted span; because the span starts with `{`, a successful decode
   * is always an object. No span and a failed decode both raise ValueError
   * (`json.JSONDecodeError` is a subclass of it).
   */
  function ParsedResponse(text: string, decode: string -> Option<Dict>, repr: Value -> string): Result<Dict, PyError> {
    match JsonSpan(CleanAiResponse(text))
    case None => Err(ValueError)
    case Some(span) =>
      match decode(span)
      case None => Err(ValueError)
      case Some(d) => Repaired(d, repr)
  }

  /** What the repair guarantees of its result: all keys, an integer score in 0..100, two lists. */
  predicate WellFormed(d: Dict) {
    && RequiredKeys <= d.Keys
    && d[ScoreKey].JInt? && 0 <= d[ScoreKey].i <= 100
    && d[StrengthsKey].JArr?
    && d[MissingKey].JArr?
  }

  /** The repair succeeds unless the reply's score is an infinite float. */
  lemma RepairedErrIff(d: Dict, repr: Value -> string)
    ensures Repaired(d, repr).Err? <==> ScoreKey in d && d[ScoreKey].JFloat? && (d[ScoreKey].f.PosInf? || d[ScoreKey].f.NegInf?)
    ensures Repaired(d, repr).Err? ==> Repaired(d, repr).error == OverflowError
  {
    assert WithDefaults(d)[ScoreKey] == if ScoreKey in d then d[ScoreKey] else JInt(DefaultScore);
  }

  /**
   * A repaired reply is well formed, has exactly the decoded keys plus the
   * required ones, keeps every value other than the score and the two lists,
   * and fills a missing summary or email with the empty string.
   */
  lemma RepairedShape(d: Dict, repr: Value -> string)
    requires Repaired(d, repr).Ok?
    ensures WellFormed(Repaired(d, repr).value)
    ensures Repaired(d, repr).value.Keys == d.Keys + RequiredKeys
    ensures forall k :: k in d && k != ScoreKey && k != StrengthsKey && k != MissingKey ==> Repaired(d, repr).value[k] == d[k]
    ensures SummaryKey !in d ==> Repaired(d, repr).value[SummaryKey] == JStr("")
    ensures EmailKey !in d ==> Repaired(d, repr).value[EmailKey] == JStr("")
  {
    KeysDistinct();
    var f := WithDefaults(d);
    WithDefaultsShape(d);
    RepairStepsShape(f, RepairScore(f[ScoreKey]).value, repr);
  }

  /** The dictionary once the missing keys have their defaults: every key kept, each required one present. */
  lemma WithDefaultsShape(d: Dict)
    ensures WithDefaults(d).Keys == d.Keys + RequiredKeys
    ensures forall k :: k in d ==> WithDefaults(d)[k] == d[k]
    ensures forall k :: k in RequiredKeys && k !in d ==> WithDefaults(d)[k] == DefaultFor(k)
  {
  }

  /** The updates touch only the score and the two lists, and leave them well typed. */
  lemma RepairStepsShape(f: Dict, score: Value, repr: Value -> string)
    requires RequiredKeys <= f.Keys
    requires score.JInt? && 0 <= score.i <= 100
    ensures RepairSteps(f, score, repr).Keys == f.Keys
    ensures WellFormed(RepairSteps(f, score, repr))
    ensures forall k :: k in f && k != ScoreKey && k != StrengthsKey && k != MissingKey ==> RepairSteps(f, score, repr)[k] == f[k]
  {
    KeysDistinct();
  }

  /** The score survives the repair clamped when `int` accepts it, and is 50 when it is missing or unreadable. */
  lemma RepairedScore(d: Dict, repr: Value -> string)
    requires Repaired(d, repr).Ok?
    ensures ScoreKey !in d ==> Repaired(d, repr).value[ScoreKey] == JInt(DefaultScore)
    ensures ScoreKey in d && PyInt(d[ScoreKey]).Ok? ==> Repaired(d, repr).value[ScoreKey] == JInt(ClampPercent(PyInt(d[ScoreKey]).value))
    ensures ScoreKey in d && PyInt(d[ScoreKey]).Err? ==> Repaired(d, repr).value[ScoreKey] == JInt(DefaultScore)
  {
  }

  /** A list field holds the decoded list, the `str` of a truthy non-list, or nothing. */
  lemma RepairedLists(d: Dict, repr: Value -> string)
    requires Repaired(d, repr).Ok?
    ensures forall k :: k in ListKeys ==>
      var v := Repaired(d, repr).value[k];
      && (k in d && d[k].JArr? ==> v == d[k])
      && (k in d && !d[k].JArr? && Truthy(d[k]) ==> v == JArr([JStr(PyStr(d[k], repr))]))
      && (k !in d || (!d[k].JArr? && !Truthy(d[k])) ==> v == JArr([]))
  {
  }

  /** A reply that is already well formed passes through unchanged, so repairing twice is repairing once. */
  lemma RepairedIdempotent(d: Dict, repr: Value -> string)
    requires WellFormed(d)
    ensures Repaired(d, repr) == Ok(d)
  {
    assert WithDefaults(d) == d;
    assert RepairScore(d[ScoreKey]) == Ok(d[ScoreKey]);
    assert d[ScoreKey := d[ScoreKey]] == d;
    assert RepairList(d[StrengthsKey], repr) == d[StrengthsKey];
    assert d[StrengthsKey := d[StrengthsKey]] == d;
    assert RepairList(d[MissingKey], repr) == d[MissingKey];
    assert d[MissingKey := d[MissingKey]] == d;
  }

  /**
   * The Groq guardrail: a score under 35 is raised to 35 when at least one
   * strength is listed; nothing else changes.
   */
  function Guardrail(d: Dict): (r: Dict)
    requires WellFormed(d)
    ensures WellFormed(r) && r.Keys == d.Keys
    ensures forall k :: k in d && k != ScoreKey ==> r[k] == d[k]
    ensures r[ScoreKey].i == if d[ScoreKey].i < 35 && |d[StrengthsKey].items| > 0 then 35 else d[ScoreKey].i
    ensures r[ScoreKey].i >= d[ScoreKey].i
    ensures |d[StrengthsKey].items| > 0 ==> r[ScoreKey].i >= 35
  {
    if d[ScoreKey].i < 35 && |d[StrengthsKey].items| > 0 then d[ScoreKey := JInt(35)] else d
  }

  /** Applying the guardrail twice is applying it once. */
  lemma GuardrailIdempotent(d: Dict)
    requires WellFormed(d)
    ensures Guardrail(Guardrail(d)) == Guardrail(d)
  {
  }

  /** The five required keys are five different strings. */
  lemma KeysDistinct()
    ensures ScoreKey != StrengthsKey && ScoreKey != MissingKey && StrengthsKey != MissingKey
    ensures SummaryKey !in {ScoreKey, StrengthsKey, MissingKey} && EmailKey !in {ScoreKey, StrengthsKey, MissingKey}
  {
    assert ScoreKey[0] == 'm' && StrengthsKey[0] == 'k' && MissingKey[0] == 'm';
    assert ScoreKey[1] == 'a' && MissingKey[1] == 'i';
    assert SummaryKey[0] == 's' && EmailKey[0] == 'e';
  }

  /** The defaults step: the missing required keys, computed as a set difference, each get their default. */
  method FillDefaults(d: Dict) returns (parsed: Dict)
    ensures parsed == WithDefaults(d)
  {
    var missing := RequiredKeys - d.Keys;
    parsed := ApplyDefaults(d, missing);
    assert parsed.Keys == WithDefaults(d).Keys;
  }

  /** `for key in missing:` — every key of the set, in whatever order the set yields them, gets its default. */
  method ApplyDefaults(d: Dict, missing: set<string>) returns (parsed: Dict)
    requires missing !! d.Keys
    ensures parsed.Keys == d.Keys + missing
    ensures forall k :: k in parsed ==> parsed[k] == if k in d then d[k] else DefaultFor(k)
  {
    parsed := d;
    var todo := missing;
    while todo != {}
      invariant todo <= missing
      invariant parsed.Keys == d.Keys + (missing - todo)
      invariant forall k :: k in parsed ==> parsed[k] == if k in d then d[k] else DefaultFor(k)
      decreases todo
    {
      var key :| key in todo;
      parsed := parsed[key := DefaultFor(key)];
      todo := todo - {key};
    }
  }

  /** The list step: `key_strengths`, then `missing_skills`, each coerced unless it already is a list. */
  method CoerceLists(scored: Dict, repr: Value -> string) returns (parsed: Dict)
    requires StrengthsKey in scored && MissingKey in scored
    ensures parsed == var h := scored[StrengthsKey := RepairList(scored[StrengthsKey], repr)];
                      h[MissingKey := RepairList(h[MissingKey], repr)]
  {
    KeysDistinct();
    parsed := scored;
    for n := 0 to |ListKeys|
      invariant parsed.Keys == scored.Keys
      invariant forall k :: k in scored && k !in ListKeys[..n] ==> parsed[k] == scored[k]
      invariant forall k :: k in ListKeys[..n] ==> parsed[k] == RepairList(scored[k], repr)
    {
      var key := ListKeys[n];
      if !parsed[key].JArr? {
        parsed := parsed[key := if Truthy(parsed[key]) then JArr([JStr(PyStr(parsed[key], repr))]) else JArr([])];
      }
    }
    assert ListKeys[..|ListKeys|] == ListKeys;
  }

  /**
   * `_parse_json_response`: clean, extract, decode, then fill defaults, coerce
   * the score, and coerce the two list fields.
   */
  method ParseJsonResponse(text: string, decode: string -> Option<Dict>, repr: Value -> string)
    returns (result: Result<Dict, PyError>)
    ensures result == ParsedResponse(text, decode, repr)
    ensures result.Err? ==> result.error == ValueError || result.error == OverflowError
    ensures result.Ok? ==> WellFormed(result.value)
  {
    var cleaned := CleanAiResponse(text);
    var span := JsonSpan(cleaned);
    if span.None? {
      return Err(ValueError);
    }
    var decoded := decode(span.value);
    if decoded.None? {
      return Err(ValueError);
    }
    result := RepairDecoded(decoded.value, repr);
  }

  /** The repair steps of `_parse_json_response` on the decoded object. */
  method RepairDecoded(d: Dict, repr: Value -> string) returns (result: Result<Dict, PyError>)
    ensures result == Repaired(d, repr)
    ensures result.Err? ==> result.error == OverflowError
    ensures result.Ok? ==> WellFormed(result.value)
  {
    var parsed := FillDefaults(d);
    var score := PyInt(parsed[ScoreKey]);
    if score.Ok? {
      parsed := parsed[ScoreKey := JInt(ClampPercent(score.value))];
    } else if score.error == TypeError || score.error == ValueError {
      parsed := parsed[ScoreKey := JInt(DefaultScore)];
    } else {
      RepairedErrIff(d, repr);
      return Err(score.error);
    }
    parsed := CoerceLists(parsed, repr);
    result := Ok(parsed);
    RepairedShape(d, repr);
  }
}
