/**
 * The three-tier failover of the `/analyze-resume` endpoint: Groq first, then
 * Gemini, then the keyword engine, and a fixed default should even the engine
 * raise; the chosen dictionary is then normalised into the response fields.
 *
 * Each tier is seen by the orchestrator as an outcome: not consulted because
 * its client is unavailable, consulted and raising, or consulted and returning
 * a dictionary. `SelectTier` is the chain over such outcomes, `RunTiers` the
 * endpoint's guarded blocks over them, and `ChooseResult` the same blocks on
 * the two concrete clients. The keyword engine is handed to the blocks as
 * `engine`; the endpoint's own engine is `Providers.KeywordDict`, whose facts
 * are stated once in `EngineResultNormalizes`.
 */
module Orchestrator {
  import opened Wrappers
  import opened Json
  import opened Repair
  import Text
  import Experience
  import Engine
  import Providers

  /** The tier that produced the result (`ai_source`). */
  datatype Tier = Groq | Gemini | Keyword | HardDefault

  /** A provider tier as the orchestrator sees it. */
  datatype Outcome = Unavailable | Raises | Returns(d: Dict)

  /** The chosen dictionary, its tier, and the tiers consulted, in the order they were. */
  datatype Run = Run(result: Dict, source: Tier, invoked: seq<Tier>)

  /** The position of a tier in the chain. */
  function Rank(t: Tier): nat {
    match t
    case Groq => 0
    case Gemini => 1
    case Keyword => 2
    case HardDefault => 3
  }

  /** Tiers listed in strictly increasing chain order, so none twice. */
  predicate InChainOrder(ts: seq<Tier>) {
    forall i, j :: 0 <= i < j < |ts| ==> Rank(ts[i]) < Rank(ts[j])
  }

  const UnavailableSummary: string := "AI analysis temporarily unavailable. Please try again."

  /** The safe default used when every tier, the keyword engine included, has failed. */
  const HardDefaultResult: Dict :=
    map[ScoreKey := JInt(0), StrengthsKey := JArr([]), MissingKey := JArr([]),
        SummaryKey := JStr(UnavailableSummary), EmailKey := JStr("")]

  /**
   * The tier chain. Groq is consulted when available; Gemini when available
   * and Groq produced nothing; the keyword engine when neither produced
   * anything; the default only when the keyword engine raised as well.
   */
  function SelectTier(groq: Outcome, gemini: Outcome, keyword: Option<Dict>): (run: Run)
    ensures InChainOrder(run.invoked) && HardDefault !in run.invoked
    ensures Groq in run.invoked <==> !groq.Unavailable?
    ensures Gemini in run.invoked <==> !gemini.Unavailable? && !groq.Returns?
    ensures Keyword in run.invoked <==> !groq.Returns? && !gemini.Returns?
    ensures run.source == Groq <==> groq.Returns?
    ensures run.source == Gemini <==> !groq.Returns? && gemini.Returns?
    ensures run.source == Keyword <==> !groq.Returns? && !gemini.Returns? && keyword.Some?
    ensures run.source == HardDefault <==> !groq.Returns? && !gemini.Returns? && keyword.None?
    ensures run.source == Groq ==> run.result == groq.d
    ensures run.source == Gemini ==> run.result == gemini.d
    ensures run.source == Keyword ==> run.result == keyword.value
    ensures run.source == HardDefault ==> run.result == HardDefaultResult
    ensures run.invoked != [] && run.invoked[|run.invoked| - 1] == (if run.source == HardDefault then Keyword else run.source)
  {
    var first := if groq.Unavailable? then [] else [Groq];
    if groq.Returns? then Run(groq.d, Groq, first)
    else
      var second := first + (if gemini.Unavailable? then [] else [Gemini]);
      if gemini.Returns? then Run(gemini.d, Gemini, second)
      else
        match keyword
        case Some(d) => Run(d, Keyword, second + [Keyword])
        case None => Run(HardDefaultResult, HardDefault, second + [Keyword])
  }

  /**
   * The guarded blocks of the endpoint over abstract outcomes: `aiResult` and
   * `aiSource` start unset and each block runs only while no result exists.
   */
  method RunTiers(groq: Outcome, gemini: Outcome, keyword: Option<Dict>)
    returns (result: Dict, source: Tier, invoked: seq<Tier>)
    ensures Run(result, source, invoked) == SelectTier(groq, gemini, keyword)
  {
    var aiResult: Option<Dict> := None;
    var aiSource: Option<Tier> := None;
    invoked := [];
    if !groq.Unavailable? {
      invoked := invoked + [Groq];
      if groq.Returns? {
        aiResult, aiSource := Some(groq.d), Some(Groq);
      }
    }
    if aiResult.None? && !gemini.Unavailable? {
      invoked := invoked + [Gemini];
      if gemini.Returns? {
        aiResult, aiSource := Some(gemini.d), Some(Gemini);
      }
    }
    if aiResult.None? {
      invoked := invoked + [Keyword];
      if keyword.Some? {
        aiResult, aiSource := keyword, Some(Keyword);
      } else {
        aiResult, aiSource := Some(HardDefaultResult), Some(HardDefault);
      }
    }
    result, source := aiResult.value, aiSource.value;
  }

  /** The response fields after validation (`AIAnalysisResult`). */
  datatype Normalized = Normalized(matchScore: int, keyStrengths: seq<Value>, missingSkills: seq<Value>,
                                   summary: string, emailDraft: string)

  /** `value or []` validated as a list: a falsy value gives `[]`; a truthy one must be a list. */
  function NormalizeList(v: Value): (r: Result<seq<Value>, PyError>)
    ensures r.Ok? <==> !Truthy(v) || v.JArr?
    ensures r.Ok? ==> r.value == (if v.JArr? then v.items else [])
    ensures r.Err? ==> r.error == ValidationError
  {
    if !Truthy(v) then Ok([]) else if v.JArr? then Ok(v.items) else Err(ValidationError)
  }

  /** `value or ""` validated as a string: a falsy value gives `""`; a truthy one must be a string. */
  function NormalizeText(v: Value): (r: Result<string, PyError>)
    ensures r.Ok? <==> !Truthy(v) || v.JStr?
    ensures r.Ok? ==> r.value == (if v.JStr? then v.s else "")
    ensures r.Err? ==> r.error == ValidationError
  {
    if !Truthy(v) then Ok("") else if v.JStr? then Ok(v.s) else Err(ValidationError)
  }

  /** The field checks succeed exactly when each list field is falsy or a list and each text field falsy or a string. */
  predicate FieldsValid(d: Dict) {
    NormalizeList(Get(d, StrengthsKey, JArr([]))).Ok? && NormalizeList(Get(d, MissingKey, JArr([]))).Ok?
    && NormalizeText(Get(d, SummaryKey, JStr(""))).Ok? && NormalizeText(Get(d, EmailKey, JStr(""))).Ok?
  }

  /**
   * The normalisation: `int(...)` of the score (0 when absent), clamped to
   * 0..100, and the four other fields validated. A score `int` rejects raises
   * its own error first; a field of the wrong type is a validation error.
   */
  function Normalize(d: Dict): (r: Result<Normalized, PyError>)
    ensures r.Ok? <==> PyInt(Get(d, ScoreKey, JInt(0))).Ok? && FieldsValid(d)
    ensures r.Ok? ==> 0 <= r.value.matchScore <= 100
    ensures r.Ok? ==> r.value.matchScore == ClampPercent(PyInt(Get(d, ScoreKey, JInt(0))).value)
    ensures r.Ok? && ScoreKey !in d ==> r.value.matchScore == 0
    ensures r.Err? && PyInt(Get(d, ScoreKey, JInt(0))).Err? ==> r.error == PyInt(Get(d, ScoreKey, JInt(0))).error
    ensures r.Err? && PyInt(Get(d, ScoreKey, JInt(0))).Ok? ==> r.error == ValidationError
  {
    match PyInt(Get(d, ScoreKey, JInt(0)))
    case Err(e) => Err(e)
    case Ok(i) =>
      var strengths := NormalizeList(Get(d, StrengthsKey, JArr([])));
      var missing := NormalizeList(Get(d, MissingKey, JArr([])));
      var summary := NormalizeText(Get(d, SummaryKey, JStr("")));
      var email := NormalizeText(Get(d, EmailKey, JStr("")));
      if strengths.Err? || missing.Err? || summary.Err? || email.Err? then Err(ValidationError)
      else Ok(Normalized(ClampPercent(i), strengths.value, missing.value, summary.value, email.value))
  }

  /** The dictionary a normalised result stands for. */
  function Denormalize(n: Normalized): Dict {
    map[ScoreKey := JInt(n.matchScore), StrengthsKey := JArr(n.keyStrengths), MissingKey := JArr(n.missingSkills),
        SummaryKey := JStr(n.summary), EmailKey := JStr(n.emailDraft)]
  }

  /** Normalising a normalised result changes nothing. */
  lemma NormalizeRoundTrip(n: Normalized)
    requires 0 <= n.matchScore <= 100
    ensures Normalize(Denormalize(n)) == Ok(n)
  {
    KeysDistinct();
    var d := Denormalize(n);
    assert Get(d, ScoreKey, JInt(0)) == JInt(n.matchScore);
    assert Get(d, StrengthsKey, JArr([])) == JArr(n.keyStrengths);
    assert Get(d, MissingKey, JArr([])) == JArr(n.missingSkills);
    assert Get(d, SummaryKey, JStr("")) == JStr(n.summary);
    assert Get(d, EmailKey, JStr("")) == JStr(n.emailDraft);
  }

  /**
   * A repaired provider reply keeps its score and lists through normalisation;
   * only a summary or email that is neither falsy nor a string fails.
   */
  lemma NormalizeWellFormed(d: Dict)
    requires WellFormed(d)
    ensures Normalize(d).Ok? <==> FieldsValid(d)
    ensures Normalize(d).Ok? ==> Normalize(d).value.matchScore == d[ScoreKey].i
                                 && Normalize(d).value.keyStrengths == d[StrengthsKey].items
                                 && Normalize(d).value.missingSkills == d[MissingKey].items
  {
    assert Get(d, ScoreKey, JInt(0)) == d[ScoreKey];
    assert Get(d, StrengthsKey, JArr([])) == d[StrengthsKey];
    assert Get(d, MissingKey, JArr([])) == d[MissingKey];
  }

  /** A dictionary with no usable score normalises to an error, whatever its other fields. */
  lemma NormalizeBadScore(d: Dict)
    requires ScoreKey in d && (d[ScoreKey].JNull? || d[ScoreKey].JArr? || d[ScoreKey].JObj?)
    ensures Normalize(d) == Err(TypeError)
  {
  }

  /** The default result normalises to score 0 with the "temporarily unavailable" summary. */
  lemma HardDefaultNormalizes()
    ensures Normalize(HardDefaultResult) == Ok(Normalized(0, [], [], UnavailableSummary, ""))
  {
    KeysDistinct();
    var d := HardDefaultResult;
    assert Get(d, ScoreKey, JInt(0)) == JInt(0);
    assert Get(d, StrengthsKey, JArr([])) == JArr([]);
    assert Get(d, MissingKey, JArr([])) == JArr([]);
    assert Get(d, SummaryKey, JStr("")) == JStr(UnavailableSummary);
    assert Get(d, EmailKey, JStr("")) == JStr("");
  }

  /** The keyword engine's dictionary normalises to exactly the engine's assessment. */
  lemma KeywordNormalizes(a: Engine.Analysis)
    requires 25 <= a.matchScore <= 95 && |a.keyStrengths| >= 1 && |a.missingSkills| >= 1
    ensures Normalize(Providers.ToDict(a))
            == Ok(Normalized(a.matchScore, Providers.Strings(a.keyStrengths), Providers.Strings(a.missingSkills),
                             a.summary, a.emailDraft))
  {
    KeysDistinct();
    var d := Providers.ToDict(a);
    assert Get(d, ScoreKey, JInt(0)) == JInt(a.matchScore);
    assert Get(d, StrengthsKey, JArr([])) == JArr(Providers.Strings(a.keyStrengths));
    assert Get(d, MissingKey, JArr([])) == JArr(Providers.Strings(a.missingSkills));
    assert Get(d, SummaryKey, JStr("")) == JStr(a.summary);
    assert Get(d, EmailKey, JStr("")) == JStr(a.emailDraft);
  }

  /** Tier 1 as the orchestrator sees it: skipped when unavailable, else the Groq client's result or its exception. */
  function GroqTier(available: bool, resume: string, job: string, complete: (string, string) -> Providers.Reply,
                    decode: string -> Option<Dict>, repr: Value -> string): (o: Outcome)
    ensures o.Unavailable? <==> !available
    ensures o.Returns? ==> WellFormed(o.d)
    ensures o.Returns? && |o.d[StrengthsKey].items| > 0 ==> o.d[ScoreKey].i >= Providers.GuardrailFloor
  {
    if !available then Unavailable
    else
      match Providers.GroqOutcome(true, resume, job, complete, decode, repr)
      case Ok(d) => Returns(d)
      case Err(_) => Raises
  }

  /**
   * Tier 2 as the orchestrator sees it: skipped when unavailable, else the
   * Gemini client's result, which is an exception exactly when the client's
   * own attempt falls through and the keyword engine it falls back on raises.
   */
  function GeminiTier(available: bool, resume: string, job: string, generate: (string, string) -> Providers.Reply,
                      decode: string -> Option<Dict>, fallback: Result<Dict, PyError>): (o: Outcome)
    ensures o.Unavailable? <==> !available
    ensures o.Raises? <==> available && Providers.GeminiReply(true, resume, job, generate, decode).None? && fallback.Err?
    ensures o.Returns? ==> fallback == Ok(o.d) || Providers.GeminiReply(true, resume, job, generate, decode) == Some(o.d)
  {
    if !available then Unavailable
    else
      match Providers.GeminiOutcome(true, resume, job, generate, decode, fallback)
      case Ok(d) => Returns(d)
      case Err(_) => Raises
  }

  /** The keyword engine's outcome as the Tier 3 block sees it: a dictionary, or nothing when it raises. */
  function EngineTier(keyword: Result<Dict, PyError>): Option<Dict> {
    match keyword
    case Ok(d) => Some(d)
    case Err(_) => None
  }

  /** The whole chain on the two clients' availability, the remote calls and the keyword engine's outcome. */
  function Chain(groqAvailable: bool, geminiAvailable: bool, resume: string, job: string,
                 complete: (string, string) -> Providers.Reply, generate: (string, string) -> Providers.Reply,
                 decode: string -> Option<Dict>, repr: Value -> string, keyword: Result<Dict, PyError>): Run {
    SelectTier(GroqTier(groqAvailable, resume, job, complete, decode, repr),
               GeminiTier(geminiAvailable, resume, job, generate, decode, keyword),
               EngineTier(keyword))
  }

  /**
   * The chain ends with the default exactly when Groq returns nothing, Gemini
   * does not answer from its own model, and the keyword engine raises; the
   * engine's result is taken only when Gemini is unavailable, and a Groq result
   * keeps its repaired score through normalisation.
   */
  lemma ChainOutcome(groqAvailable: bool, geminiAvailable: bool, resume: string, job: string,
                     complete: (string, string) -> Providers.Reply, generate: (string, string) -> Providers.Reply,
                     decode: string -> Option<Dict>, repr: Value -> string, keyword: Result<Dict, PyError>)
    ensures var run := Chain(groqAvailable, geminiAvailable, resume, job, complete, generate, decode, repr, keyword);
            && (run.source == HardDefault
                <==> keyword.Err? && !GroqTier(groqAvailable, resume, job, complete, decode, repr).Returns?
                     && !(geminiAvailable && Providers.GeminiReply(true, resume, job, generate, decode).Some?))
            && (run.source == Keyword ==> !geminiAvailable && keyword == Ok(run.result))
            && (run.source == Groq ==> WellFormed(run.result)
                                       && (Normalize(run.result).Ok? ==> Normalize(run.result).value.matchScore == run.result[ScoreKey].i))
  {
    var run := Chain(groqAvailable, geminiAvailable, resume, job, complete, generate, decode, repr, keyword);
    if run.source == Groq {
      NormalizeWellFormed(run.result);
    }
  }

  /**
   * The keyword engine's dictionary, when it does not raise, normalises without
   * error, to a score in 25..95 and two non-empty lists.
   */
  lemma EngineResultNormalizes(resume: string, job: string)
    ensures var k := Providers.KeywordDict(resume, job);
            k.Ok? ==>
            var n := Normalize(k.value);
            n.Ok? && 25 <= n.value.matchScore <= 95 && |n.value.keyStrengths| >= 1 && |n.value.missingSkills| >= 1
  {
    Engine.AnalyzeShape(resume, job);
    OutcomeNormalizes(Providers.KeywordDict(resume, job), Engine.Assess(resume, job));
  }

  /** An engine outcome whose assessment has the engine's bounds normalises to those bounds. */
  lemma OutcomeNormalizes(k: Result<Dict, PyError>, r: Result<Engine.Analysis, PyError>)
    requires r.Ok? ==> 25 <= r.value.matchScore <= 95 && |r.value.keyStrengths| >= 1 && |r.value.missingSkills| >= 1
    requires k == match r case Ok(a) => Ok(Providers.ToDict(a)) case Err(e) => Err(e)
    ensures k.Ok? ==>
            var n := Normalize(k.value);
            n.Ok? && 25 <= n.value.matchScore <= 95 && |n.value.keyStrengths| >= 1 && |n.value.missingSkills| >= 1
  {
    if r.Ok? {
      KeywordNormalizes(r.value);
    }
  }

  /**
   * With neither remote client available, a resume that opens with more than
   * 4300 digits and " years experience" ends the chain in the default, which
   * normalises to score 0. The engine raises exactly on such over-long
   * captures (`Providers.KeywordDictRaises`).
   */
  lemma DefaultReachable(d: string, job: string, complete: (string, string) -> Providers.Reply,
                         generate: (string, string) -> Providers.Reply, decode: string -> Option<Dict>,
                         repr: Value -> string)
    requires Text.AllDigits(d) && |d| > Text.MaxStrDigits
    ensures var resume := d + Experience.YearsExperience;
            var run := Chain(false, false, resume, job, complete, generate, decode, repr, Providers.KeywordDict(resume, job));
            run.source == HardDefault && run.invoked == [Keyword]
            && Normalize(run.result) == Ok(Normalized(0, [], [], UnavailableSummary, ""))
  {
    Engine.LongYearsRaise(d, job);
    HardDefaultNormalizes();
  }

  /** The Tier 1 block: the Groq client is asked only when it is available, and an exception is caught. */
  method TryGroq(client: Providers.GroqClient, resume: string, job: string,
                 complete: (string, string) -> Providers.Reply, decode: string -> Option<Dict>, repr: Value -> string)
    returns (o: Outcome)
    ensures o == GroqTier(client.IsAvailable(), resume, job, complete, decode, repr)
  {
    if !client.IsAvailable() {
      return Unavailable;
    }
    var attempt := client.AnalyzeResume(resume, job, complete, decode, repr);
    o := if attempt.Ok? then Returns(attempt.value) else Raises;
  }

  /** The Tier 2 block: the Gemini client is asked only when it is available, and an exception is caught. */
  method TryGemini(client: Providers.GeminiClient, resume: string, job: string,
                   generate: (string, string) -> Providers.Reply, decode: string -> Option<Dict>,
                   engine: (string, string) -> Result<Dict, PyError>)
    returns (o: Outcome)
    ensures o == GeminiTier(client.IsAvailable(), resume, job, generate, decode, engine(resume, job))
  {
    if !client.IsAvailable() {
      return Unavailable;
    }
    var answer := client.AnalyzeResume(resume, job, generate, decode, engine);
    o := if answer.Ok? then Returns(answer.value) else Raises;
  }

  /**
   * The guarded tier blocks of the `/analyze-resume` endpoint on the two
   * clients: Gemini is not asked once Groq has answered, and the keyword
   * engine only when neither has. The `ai_result is None` guards appear as
   * nesting. `engine` is the keyword engine, which the Gemini client falls back
   * on and Tier 3 calls through a fresh client; when it raises there, the
   * `except` arm takes the default.
   */
  method ChooseResult(groqClient: Providers.GroqClient, geminiClient: Providers.GeminiClient,
                      resume: string, job: string,
                      complete: (string, string) -> Providers.Reply, generate: (string, string) -> Providers.Reply,
                      decode: string -> Option<Dict>, repr: Value -> string,
                      engine: (string, string) -> Result<Dict, PyError>)
    returns (result: Dict, source: Tier, invoked: seq<Tier>)
    ensures Run(result, source, invoked)
            == Chain(groqClient.IsAvailable(), geminiClient.IsAvailable(), resume, job, complete, generate, decode, repr,
                     engine(resume, job))
  {
    invoked := [];
    var groq := TryGroq(groqClient, resume, job, complete, decode, repr);
    if !groq.Unavailable? {
      invoked := [Groq];
    }
    if groq.Returns? {
      result, source := groq.d, Groq;
    } else {
      var gemini := TryGemini(geminiClient, resume, job, generate, decode, engine);
      if !gemini.Unavailable? {
        invoked := invoked + [Gemini];
      }
      if gemini.Returns? {
        result, source := gemini.d, Gemini;
      } else {
        invoked := invoked + [Keyword];
        var keyword := engine(resume, job);
        if keyword.Ok? {
          result, source := keyword.value, Keyword;
        } else {
          result, source := HardDefaultResult, HardDefault;
        }
      }
    }
  }

  /**
   * The analysis part of the `/analyze-resume` endpoint: the tier blocks, then
   * the normalisation. `engine` is the keyword engine (`Providers.KeywordDict`).
   */
  method AnalyzeResume(groqClient: Providers.GroqClient, geminiClient: Providers.GeminiClient,
                       resume: string, job: string,
                       complete: (string, string) -> Providers.Reply, generate: (string, string) -> Providers.Reply,
                       decode: string -> Option<Dict>, repr: Value -> string,
                       engine: (string, string) -> Result<Dict, PyError>)
    returns (analysis: Result<Normalized, PyError>, source: Tier, invoked: seq<Tier>)
    ensures var run := Chain(groqClient.IsAvailable(), geminiClient.IsAvailable(), resume, job,
                             complete, generate, decode, repr, engine(resume, job));
            source == run.source && invoked == run.invoked && analysis == Normalize(run.result)
    ensures source == HardDefault ==> engine(resume, job).Err?
                                      && analysis == Ok(Normalized(0, [], [], UnavailableSummary, ""))
    ensures analysis.Ok? ==> 0 <= analysis.value.matchScore <= 100
  {
    var result;
    result, source, invoked := ChooseResult(groqClient, geminiClient, resume, job, complete, generate, decode, repr, engine);
    analysis := Normalize(result);
    if source == HardDefault {
      HardDefaultNormalizes();
    }
  }
}
