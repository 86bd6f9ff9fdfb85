/**
 * The two remote analysis tiers: the Groq client (`GroqAIClient`, the first
 * tier) and the Gemini client (`GeminiAIClient`, the second tier, which falls
 * back to the keyword engine on any failure of its own, outside its handler, so
 * that an exception of the engine escapes the client).
 *
 * The remote calls are parameters: `complete` stands for Groq's chat
 * completion on a prompt built from the clipped resume and the job text,
 * `generate` for Gemini's `generate_content`, and `decode` for `json.loads`
 * on a span that starts with `{`. Either call may fail (`CallFailed`).
 */
module Providers {
  import opened Wrappers
  import opened Text
  import opened Json
  import opened Cleaning
  import opened Repair
  import Experience
  import Engine

  /** What a remote model call produces: the reply text, or an exception. */
  datatype Reply = Reply(text: string) | CallFailed

  /** The longest resume prefix the Groq prompt carries. */
  const ResumeLimit: nat := 6000

  /** The score floor the Groq guardrail applies when some strength is listed. */
  const GuardrailFloor: int := 35

  /** The Gemini model the client instantiates. */
  const GeminiModel: string := "gemini-pro"

  /** `resume_text[:6000] if len(resume_text) > 6000 else resume_text` */
  function Clip(s: string): (r: string)
    ensures |r| <= ResumeLimit
    ensures StartsWith(s, r)
    ensures |s| <= ResumeLimit <==> r == s
    ensures |s| > ResumeLimit ==> |r| == ResumeLimit
  {
    if |s| > ResumeLimit then s[..ResumeLimit] else s
  }

  /** Clipping twice is clipping once. */
  lemma ClipIdempotent(s: string)
    ensures Clip(Clip(s)) == Clip(s)
  {
  }

  function Strings(ss: seq<string>): (vs: seq<Value>)
    ensures |vs| == |ss| && forall i :: 0 <= i < |ss| ==> vs[i] == JStr(ss[i])
  {
    seq(|ss|, i requires 0 <= i < |ss| => JStr(ss[i]))
  }

  /** The dictionary the keyword engine returns. */
  function ToDict(a: Engine.Analysis): Dict {
    map[ScoreKey := JInt(a.matchScore),
        StrengthsKey := JArr(Strings(a.keyStrengths)),
        MissingKey := JArr(Strings(a.missingSkills)),
        SummaryKey := JStr(a.summary),
        EmailKey := JStr(a.emailDraft)]
  }

  /**
   * The engine's dictionary has exactly the required keys and is well formed;
   * its bounds are those of `Engine.AnalyzeShape`.
   */
  lemma KeywordDictWellFormed(a: Engine.Analysis)
    requires 25 <= a.matchScore <= 95 && |a.keyStrengths| >= 1 && |a.missingSkills| >= 1
    ensures var d := ToDict(a);
            d.Keys == RequiredKeys && WellFormed(d)
            && 25 <= d[ScoreKey].i <= 95
            && |d[StrengthsKey].items| >= 1 && |d[MissingKey].items| >= 1
  {
    KeysDistinct();
  }

  /** A reply that repairs successfully is well formed. */
  lemma ParsedWellFormed(text: string, decode: string -> Option<Dict>, repr: Value -> string)
    requires ParsedResponse(text, decode, repr).Ok?
    ensures WellFormed(ParsedResponse(text, decode, repr).value)
  {
    var d := decode(JsonSpan(CleanAiResponse(text)).value).value;
    RepairedShape(d, repr);
  }

  /**
   * The outcome of the Groq tier: unavailable, a failed call, and every error
   * while parsing all surface as ValueError; a parsed reply passes the
   * guardrail. The result depends on the resume only through its clip.
   */
  function GroqOutcome(available: bool, resume: string, job: string, complete: (string, string) -> Reply,
                       decode: string -> Option<Dict>, repr: Value -> string): (r: Result<Dict, PyError>)
    ensures r.Err? ==> r.error == ValueError
    ensures !available ==> r == Err(ValueError)
    ensures r.Ok? ==> WellFormed(r.value)
    ensures r.Ok? && |r.value[StrengthsKey].items| > 0 ==> r.value[ScoreKey].i >= GuardrailFloor
    ensures r == GroqOutcome(available, Clip(resume), job, complete, decode, repr)
  {
    if !available then Err(ValueError)
    else
      match complete(Clip(resume), job)
      case CallFailed => Err(ValueError)
      case Reply(text) =>
        var parsed := ParsedResponse(text, decode, repr);
        if parsed.Err? then Err(ValueError)
        else
          ParsedWellFormed(text, decode, repr);
          Ok(Guardrail(parsed.value))
  }

  /** An infinite score in the reply makes the whole Groq tier fail. */
  lemma GroqInfiniteScoreFails(resume: string, job: string, complete: (string, string) -> Reply,
                               decode: string -> Option<Dict>, repr: Value -> string, text: string, d: Dict)
    requires complete(Clip(resume), job) == Reply(text)
    requires JsonSpan(CleanAiResponse(text)).Some? && decode(JsonSpan(CleanAiResponse(text)).value) == Some(d)
    requires ScoreKey in d && d[ScoreKey] == JFloat(PosInf)
    ensures GroqOutcome(true, resume, job, complete, decode, repr) == Err(ValueError)
  {
    RepairedErrIff(d, repr);
  }

  /**
   * A Groq reply whose repaired score is the guardrail's input: the tier's
   * score is that score, raised to 35 when it is lower and strengths exist.
   */
  lemma GroqScore(resume: string, job: string, complete: (string, string) -> Reply,
                  decode: string -> Option<Dict>, repr: Value -> string, text: string)
    requires complete(Clip(resume), job) == Reply(text)
    requires ParsedResponse(text, decode, repr).Ok?
    ensures var p := ParsedResponse(text, decode, repr).value;
            var r := GroqOutcome(true, resume, job, complete, decode, repr);
            WellFormed(p) && r.Ok?
            && r.value[ScoreKey].i == (if p[ScoreKey].i < GuardrailFloor && |p[StrengthsKey].items| > 0 then GuardrailFloor else p[ScoreKey].i)
  {
    ParsedWellFormed(text, decode, repr);
  }

  /**
   * What the Gemini tier's own attempt yields: the decoded object when the
   * client is available, the call succeeds, the stripped reply holds a `{...}`
   * span and that span decodes; `None` otherwise, when the tier falls through
   * to the keyword engine.
   */
  function GeminiReply(available: bool, resume: string, job: string, generate: (string, string) -> Reply,
                       decode: string -> Option<Dict>): (r: Option<Dict>)
    ensures r.Some? <==> available && generate(resume, job).Reply?
                         && JsonSpan(Strip(generate(resume, job).text)).Some?
                         && decode(JsonSpan(Strip(generate(resume, job).text)).value).Some?
    ensures r.Some? ==> r == decode(JsonSpan(Strip(generate(resume, job).text)).value)
  {
    if !available then None
    else
      match generate(resume, job)
      case CallFailed => None
      case Reply(text) =>
        match JsonSpan(Strip(text))
        case None => None
        case Some(span) => decode(span)
  }

  /**
   * The outcome of the Gemini tier: its own answer, returned unchecked, or else
   * `fallback`, the keyword engine's outcome, exception included, since the
   * fallback call sits outside the `try`. The resume is not clipped.
   */
  function GeminiOutcome(available: bool, resume: string, job: string, generate: (string, string) -> Reply,
                         decode: string -> Option<Dict>, fallback: Result<Dict, PyError>): Result<Dict, PyError> {
    match GeminiReply(available, resume, job, generate, decode)
    case Some(d) => Ok(d)
    case None => fallback
  }

  /**
   * A Gemini result is either exactly what the model sent or the keyword
   * engine's outcome, and the tier raises exactly when its own attempt falls
   * through and the engine raises.
   */
  lemma GeminiResultSource(available: bool, resume: string, job: string, generate: (string, string) -> Reply,
                           decode: string -> Option<Dict>, fallback: Result<Dict, PyError>)
    ensures var r := GeminiOutcome(available, resume, job, generate, decode, fallback);
            r == fallback
            || (r.Ok? && available && generate(resume, job).Reply?
                && JsonSpan(Strip(generate(resume, job).text)).Some?
                && decode(JsonSpan(Strip(generate(resume, job).text)).value) == Some(r.value))
    ensures var r := GeminiOutcome(available, resume, job, generate, decode, fallback);
            r.Err? <==> GeminiReply(available, resume, job, generate, decode).None? && fallback.Err?
  {
  }

  /** `GroqAIClient`: the key read from the environment and the SDK client built from it. */
  class GroqClient {
    var apiKey: Option<string>
    var client: Option<string>

    /**
     * `__init__`: with a non-empty key a client is built; when building it
     * fails the key is dropped. `initSucceeds` stands for the SDK constructor
     * not raising.
     */
    constructor(envKey: Option<string>, initSucceeds: bool)
      ensures client.Some? <==> envKey.Some? && envKey.value != "" && initSucceeds
      ensures client.Some? ==> client == envKey
      ensures apiKey == if envKey.Some? && envKey.value != "" && !initSucceeds then None else envKey
    {
      apiKey := envKey;
      client := None;
      if envKey.Some? && envKey.value != "" {
        if initSucceeds {
          client := envKey;
        } else {
          apiKey := None;
        }
      }
    }

    /** `is_available`: a client exists. */
    predicate IsAvailable()
      reads this
    {
      client.Some?
    }

    /** `analyze_resume` on this client. */
    method AnalyzeResume(resume: string, job: string, complete: (string, string) -> Reply,
                         decode: string -> Option<Dict>, repr: Value -> string)
      returns (r: Result<Dict, PyError>)
      ensures r == GroqOutcome(IsAvailable(), resume, job, complete, decode, repr)
    {
      if !IsAvailable() {
        return Err(ValueError);
      }
      var clipped := if |resume| > ResumeLimit then resume[..ResumeLimit] else resume;
      var reply := complete(clipped, job);
      if reply.CallFailed? {
        return Err(ValueError);
      }
      var parsed := ParseJsonResponse(reply.text, decode, repr);
      if parsed.Err? {
        return Err(ValueError);
      }
      var analysis := parsed.value;
      if analysis[ScoreKey].i < GuardrailFloor && |analysis[StrengthsKey].items| > 0 {
        analysis := analysis[ScoreKey := JInt(GuardrailFloor)];
      }
      return Ok(analysis);
    }
  }

  /** `GeminiAIClient`: the key read from the environment and the model built from it. */
  class GeminiClient {
    var apiKey: Option<string>
    var model: Option<string>

    /**
     * `__init__`: with a non-empty key the SDK is configured and the model
     * built; when that fails the model stays unset but the key is kept.
     */
    constructor(envKey: Option<string>, initSucceeds: bool)
      ensures apiKey == envKey
      ensures model == if envKey.Some? && envKey.value != "" && initSucceeds then Some(GeminiModel) else None
    {
      apiKey := envKey;
      model := None;
      if envKey.Some? && envKey.value != "" && initSucceeds {
        model := Some(GeminiModel);
      }
    }

    /** `is_available`: a model exists. */
    predicate IsAvailable()
      reads this
    {
      model.Some?
    }

    /** The `try` block of `analyze_resume`: the decoded reply, or `None` when it falls through. */
    method TryGenerate(resume: string, job: string, generate: (string, string) -> Reply,
                       decode: string -> Option<Dict>)
      returns (answer: Option<Dict>)
      ensures answer == GeminiReply(IsAvailable(), resume, job, generate, decode)
    {
      answer := None;
      if IsAvailable() {
        var reply := generate(resume, job);
        if reply.Reply? {
          var span := JsonSpan(Strip(reply.text));
          if span.Some? {
            answer := decode(span.value);
          }
        }
      }
    }

    /**
     * `analyze_resume` on this client. `fallback` is the client's own
     * `_analyze_with_fallback`, the keyword engine; it is called after the
     * handler, so an exception it raises is the client's.
     */
    method AnalyzeResume(resume: string, job: string, generate: (string, string) -> Reply,
                         decode: string -> Option<Dict>, fallback: (string, string) -> Result<Dict, PyError>)
      returns (r: Result<Dict, PyError>)
      ensures GeminiReply(IsAvailable(), resume, job, generate, decode).Some? ==>
                r == Ok(GeminiReply(IsAvailable(), resume, job, generate, decode).value)
      ensures GeminiReply(IsAvailable(), resume, job, generate, decode).None? ==> r == fallback(resume, job)
    {
      var answer := TryGenerate(resume, job, generate, decode);
      if answer.Some? {
        r := Ok(answer.value);
      } else {
        r := fallback(resume, job);
      }
    }
  }

  /** The keyword engine's outcome as the callers see it: its dictionary, or the exception it raises. */
  function KeywordDict(resume: string, job: string): Result<Dict, PyError> {
    match Engine.Assess(resume, job)
    case Ok(a) => Ok(ToDict(a))
    case Err(e) => Err(e)
  }

  /** The keyword engine raises ValueError exactly when the years capture of the lowercased resume is over-long. */
  lemma KeywordDictRaises(resume: string, job: string)
    ensures KeywordDict(resume, job).Err? <==> Experience.YearsTooLong(Lower(resume))
    ensures KeywordDict(resume, job).Err? ==> KeywordDict(resume, job).error == ValueError
  {
    Engine.AssessOutcome(resume, job);
  }
}
