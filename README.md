# SmartHire resume analysis core, modelled in Dafny

SmartHire scores a candidate's resume against a job description. The backend
asks up to three analysis tiers in turn. Groq comes first. Gemini comes second.
A built-in keyword engine comes last and never needs the network. The endpoint
then validates the chosen dictionary into five response fields: `match_score`,
`key_strengths`, `missing_skills`, `summary` and `email_draft`.

This project models that core of `backend/main.py`, one module per part:

- **Keyword engine** (`_analyze_with_fallback`).
  - `Taxonomy` holds the fifteen weighted skill categories.
  - `Skills` holds the weighted matching loop.
  - `Experience` holds the three years-of-experience patterns.
  - `Profile` holds seniority, education and certification detection.
  - `Scoring` holds the bonuses, the clamp and the score bands.
  - `Narrative` holds the summary, the two email templates and the capped lists.
  - `Engine` ties them together.
- **Groq reply repair.** `Cleaning` holds `clean_ai_response` and the JSON span search. `Json` models the JSON values that `json.loads` yields and Python's `int()`/`str()` on them. `Repair` holds `_parse_json_response` and the score guardrail.
- **Provider clients.** `Providers` holds the two clients as classes, with the fields their constructors set, `is_available`, the 6000-character clip, and `analyze_resume`.
- **Tier selection and normalisation.** `Orchestrator` holds the guarded blocks of the `/analyze-resume` endpoint and the `AIAnalysisResult` validation.

`Text` provides the string helpers the source takes from Python: `lower`, `in`, `strip`, `title`, and `str`/`int` of whole numbers. `int()` of a decimal string follows CPython's default limit: more than 4300 digits raise `ValueError` (`Text.MaxStrDigits`). That limit reaches the keyword engine. `int(match.group(1))` on an over-long years capture raises, and nothing in the engine catches it. The Gemini client's fallback and the endpoint's Tier 3 block then raise too, and the endpoint answers with its hard default. `Wrappers` provides `Option` and `Result`.

The imperative parts of the source are methods whose contracts tie them to the specification functions:
- the scoring loop: `Skills.MatchSkills` and `Skills.ScanCategory`;
- the first-match detection loops: `Experience.ExperienceYears` and `Profile.DetectFirst`;
- the summary built by appends: `Narrative.BuildSummary`;
- the in-place dictionary repair: `Repair.ParseJsonResponse`;
- the endpoint's guarded blocks: `Orchestrator.ChooseResult`.

The lemmas then state what the source promises about those functions.

Float weights 1.0–1.5 are integers in tenths (10–15). The skill subscore is `matched * 60 / total`, rounded down as `int()` truncates.

`GeminiAIClient.analyze_resume` sends the whole resume unclipped, unlike the Groq client's 6000-character clip (`Providers.Clip`).

## Model

| member | source | states |
|---|---|---|
| Cleaning.CleanOutput | backend/main.py:951-958 | the cleaned reply never contains three backticks and has no leading or trailing whitespace |
| Cleaning.CleanIdempotent | backend/main.py:951-958 | cleaning a cleaned reply changes nothing |
| Cleaning.StripFencesIdentity | backend/main.py:952 | the fence-removing substitution leaves text without a triple backtick unchanged |
| Cleaning.RemoveTicksNoFence | backend/main.py:955 | after the `replace`, no triple backtick remains |
| Cleaning.RemoveTicksIdentity | backend/main.py:955 | the `replace` leaves text without a triple backtick unchanged |
| Cleaning.StripFencesBefore | backend/main.py:952 | text before the first backtick passes through the substitution untouched |
| Cleaning.CleanFencedJson | backend/main.py:946-958 | a body without backticks, wrapped in a json fence, comes back exactly as the body |
| Cleaning.CleanExample | backend/main.py:946-949 | the documented example: the fenced `{"key": "value"}` cleans to `{"key": "value"}` |
| Cleaning.FirstIndex | backend/main.py:877 | the position of the first occurrence of a character, or none exactly when it does not occur |
| Cleaning.LastIndex | backend/main.py:877 | the position of the last occurrence of a character, or none exactly when it does not occur |
| Cleaning.JsonSpan | backend/main.py:877-881 | the greedy `\{.*\}` search: none exactly when no `{` precedes a `}`, else the span from the first `{` to the last `}` |
| Cleaning.JsonSpanBraces | backend/main.py:877 | a found span starts with `{` and ends with `}` |
| Text.Strip | backend/main.py:958 | the stripped text has no leading or trailing whitespace |
| Text.StripSlice | backend/main.py:958 | `strip()` removes only whitespace: the result is a slice `s[a..b]` of the input with nothing but whitespace before `a` and after `b` |
| Text.StripIdentity | backend/main.py:958 | text with no leading or trailing whitespace is its own strip |
| Text.ContainsOccurs | backend/main.py:400-404 | Python's `in` on strings holds exactly when the pattern occurs at some position |
| Text.LowerAppend | backend/main.py:299-300 | lowercasing distributes over concatenation |
| Text.NatStrRoundTrip | backend/main.py:567 | the decimal text of a number reads back as that number |
| Text.ParseInt | backend/main.py:903 | `int()` accepts a string only when, once stripped, it ends in a run of at most 4300 digits |
| Text.IntStrRoundTrip | backend/main.py:903 | `int()` of the decimal text of an integer gives back the integer exactly when it has at most 4300 digits, and fails otherwise |
| Json.Truncate | backend/main.py:903 | `int()` of a finite float rounds toward zero |
| Json.PyInt | backend/main.py:903 | `int()` of a JSON value: an int is kept, an infinite float raises `OverflowError`, and null, lists and objects raise `TypeError` |
| Json.PyIntDigits | backend/main.py:903 | `int()` of a digit string is its value when it has at most 4300 digits, and `ValueError` when it has more |
| Json.PyIntOfIntStr | backend/main.py:903 | `int()` of a string holding an integer's decimal text yields that integer up to 4300 digits, and `ValueError` beyond |
| Json.PyStr | backend/main.py:910 | `str()` of a string is the string itself, and of an int of at most 4300 digits is text that reads back as that int |
| Taxonomy.Entries | backend/main.py:394-398 | one entry per term, in order, with the category's weight |
| Taxonomy.CategoryWeights | backend/main.py:306-382 | the taxonomy has fifteen categories, each weighing 1.0–1.5 |
| Taxonomy.FlattenWeights | backend/main.py:394-398 | every visited term weighs 1.0–1.5 |
| Taxonomy.DuplicatedTerms | backend/main.py:309-324 | `swift` and `kotlin` each sit in two categories, with both weights, and both places are counted |
| Skills.SnocRequired | backend/main.py:400-416 | a term the job names is added to the required list and to exactly one of strengths and gaps |
| Skills.SnocIgnored | backend/main.py:400 | a term the job does not name changes no list |
| Skills.WeightOfAppend | backend/main.py:401-410 | the weight of joined lists is the sum of their weights |
| Skills.AppendDistributes | backend/main.py:394-416 | scanning two term lists one after the other gives the concatenated required, matched and missing lists |
| Skills.Partition | backend/main.py:400-416 | matched and missing weights add up to the total weight, and their counts to the required count |
| Skills.AllPresent | backend/main.py:400-416 | when the resume holds every term the job names, the matched weight is the total and nothing is missing |
| Skills.MatchedMonotone | backend/main.py:404 | a resume holding more terms never has a smaller matched weight |
| Skills.TotalZero | backend/main.py:485-489 | the total weight is zero exactly when the job names no taxonomy term |
| Skills.SkillScore | backend/main.py:485-489 | 45 when the total is zero, else `floor(matched * 60 / total)`, which lies in 0..60 and is 60 on a full match |
| Skills.SkillScoreMonotone | backend/main.py:486 | a larger matched weight never lowers the skill subscore |
| Skills.SubscoreRange | backend/main.py:485-489 | the skill subscore lies in 0..60, and is 45 when no taxonomy term occurs in the job text |
| Skills.SubscoreFullMatch | backend/main.py:485-489 | a resume holding every job-listed term scores 60 when the job names some term, and 45 when it names none |
| Skills.SubscoreMonotone | backend/main.py:485-489 | appending text to the resume never lowers the skill subscore |
| Skills.MatchSkills | backend/main.py:389-416 | the nested loop yields the matched and missing entries in visiting order, the total required weight, and a matched weight that never exceeds it |
| Skills.ScanCategory | backend/main.py:398-416 | the inner loop extends the lists and weights by exactly one category's contribution |
| Skills.VisitTerm | backend/main.py:400-416 | one term's step keeps the lists and running weights in step with the specification |
| Experience.FirstFromLeftmost | backend/main.py:431 | the scan finds nothing exactly when no position matches, and otherwise reports the leftmost match |
| Experience.SearchLeftmost | backend/main.py:431 | `re.search` finds nothing exactly when no position matches, and otherwise returns the leftmost match's number |
| Experience.FirstImpliesBare | backend/main.py:424-428 | wherever the first pattern matches, the bare pattern matches at the same place with the same number |
| Experience.SecondImpliesBare | backend/main.py:424-428 | wherever the second pattern matches, the bare pattern matches at its digits with the same number |
| Experience.NoBareMatchNoYears | backend/main.py:423-434 | when even the bare `<N> years` pattern matches nowhere, experience is 0 and nothing raises |
| Experience.CaptureFrom | backend/main.py:429-433 | the capture the loop converts is a non-empty run of digits |
| Experience.YearsResult | backend/main.py:423-434 | the detection raises exactly when the first matching pattern captured more than 4300 digits, and then `ValueError`; otherwise the years are the value of that capture, or 0 when nothing matches |
| Experience.CaptureOrder | backend/main.py:424-433 | the first pattern's capture wins when it matches; the second's when only it and later ones match; else the bare pattern's |
| Experience.LongRunRaises | backend/main.py:427-433 | a resume of more than 4300 digits followed by " years experience" makes the detection raise `ValueError` |
| Experience.ExperienceYears | backend/main.py:423-434 | the loop returns exactly the specified detection outcome: the years of the first matching pattern, 0 when none matches, `ValueError` for an over-long capture |
| Profile.DetectFirst | backend/main.py:443-464 | the loop returns the first level in table order that has a keyword in the text, and none exactly when no level has one |
| Profile.SeniorityRules | backend/main.py:437-447 | senior exactly when a senior keyword occurs; junior exactly when only junior keywords occur; otherwise `mid` |
| Profile.EducationRules | backend/main.py:453-464 | the highest degree with a keyword present, in phd/masters/bachelors/associates order, or none |
| Profile.SeniorWins | backend/main.py:437-447 | a resume containing "senior" is senior, whatever junior words it also holds |
| Profile.ScrumMasterReadsAsMasters | backend/main.py:453-475 | a resume with the "scrum master" certification and no doctorate reads as holding a master's degree |
| Profile.FoundCertifications | backend/main.py:478 | the certifications found are exactly the listed ones that occur in the resume, each kept as many times as it is listed, so the count the bonus and summary read is fixed |
| Profile.CertificationBonus | backend/main.py:526 | two points per certification, capped at 5, reached exactly from three certifications |
| Scoring.ExperienceBonus | backend/main.py:492-502 | the step table 15/12/10/7/5/0: at most 15, 0 exactly without experience, 15 exactly from ten years |
| Scoring.ExperienceBonusMonotone | backend/main.py:492-502 | more years never earn a smaller bonus |
| Scoring.SeniorityBonus | backend/main.py:505-512 | a flat 5 when the job asks for no senior or lead; otherwise 10 exactly for senior and 0 exactly for junior |
| Scoring.SeniorityBonusMonotone | backend/main.py:505-512 | a more senior candidate never earns a smaller bonus |
| Scoring.EducationBonus | backend/main.py:515-524 | 10/8/6/4 by degree rank, and 0 exactly without a degree |
| Scoring.EducationBonusMonotone | backend/main.py:515-524 | a higher degree never earns a smaller bonus |
| Scoring.CertificationBonusValues | backend/main.py:526 | the certification bonus is always one of 0, 2, 4 and 5 |
| Scoring.Clamp | backend/main.py:529 | the result lies in 25..95 and equals its argument inside that range |
| Scoring.ClampMonotone | backend/main.py:529 | clamping keeps the order of scores |
| Scoring.FinalScore | backend/main.py:529-535 | the final score lies in 25..95 whatever the subscores |
| Scoring.FinalScoreMonotone | backend/main.py:529-535 | with the bonuses fixed, a larger skill subscore never lowers the final score |
| Scoring.TopScore | backend/main.py:529-535 | with every subscore at its cap the total of 100 is cut to 95 |
| Scoring.BandOf | backend/main.py:542-561 | the band's threshold is at most the score, and the next band's threshold is above it |
| Scoring.BandRange | backend/main.py:542-561 | each band is exactly the half-open score range from its threshold to the next one (85/75/65/50) |
| Scoring.BandMonotone | backend/main.py:542-561 | a higher score never falls in a lower band |
| Narrative.Take | backend/main.py:650-651 | slicing keeps a prefix of at most `n` items |
| Narrative.BuildSummary | backend/main.py:564-600 | the summary appended step by step is the space-joined list of the specified sentences |
| Narrative.JoinStartsWithHead | backend/main.py:600 | joined text starts with its first part |
| Narrative.SummaryShape | backend/main.py:564-600 | the summary opens with the band and score sentence, and has a gap sentence exactly when one to four skills are missing |
| Narrative.SummaryPartsOutsideGaps | backend/main.py:593-596 | with no gaps or more than four, no summary sentence is a gap sentence |
| Narrative.InterviewFormat | backend/main.py:614-617 | the invitation offers a technical discussion exactly from 75 |
| Narrative.CallMedium | backend/main.py:619 | the call is a video call exactly from 75 |
| Narrative.Urgency | backend/main.py:619 | availability is asked for this week exactly from 80 |
| Narrative.GreetingsDiffer | backend/main.py:606-631 | no text starts with both the invitation and the rejection greetings |
| Narrative.EmailDraft | backend/main.py:606-643 | an invitation exactly when the score reaches 65, else the polite rejection |
| Narrative.InvitationFormatPhrase | backend/main.py:614-617 | from 75, the invitation contains "technical discussion" |
| Narrative.InvitationCallPhrase | backend/main.py:619 | from 75, the invitation contains "video call" |
| Narrative.InvitationUrgencyPhrase | backend/main.py:619 | from 80, the invitation contains "this week" |
| Narrative.EmailDraftPhrases | backend/main.py:606-619 | a draft from 75 offers a technical discussion over a video call, and from 80 on asks for this week |
| Narrative.KeyStrengths | backend/main.py:650-655 | 1 to 10 items: the first ten matched skills in order, or the three placeholders when none matched |
| Narrative.MissingSkills | backend/main.py:651-658 | 1 to 8 items: the first eight gaps in order, or the single placeholder when none is missing |
| Engine.AnalyzeShape | backend/main.py:423-658 | the engine raises exactly when the years capture is over-long, and then `ValueError`; otherwise it returns the assessment, which for any two texts has a score in 25..95, non-empty capped lists, an invitation exactly from 65, and a summary that opens with the band and score |
| Engine.LongYearsRaise | backend/main.py:423-434 | a resume of more than 4300 digits followed by " years experience" makes the engine raise `ValueError`, whatever the job |
| Engine.AnalyzeNamesGaps | backend/main.py:593-596 | the engine's summary names gaps exactly when one to four required skills are missing |
| Engine.EngineInvitationPhrases | backend/main.py:606-619 | the engine's invitation offers a technical discussion over video call from 75, and this week from 80 |
| Engine.EngineScoreMonotone | backend/main.py:485-535 | appending text that changes neither years, level, degree nor certification count never lowers the score |
| Engine.AnalyzeWithFallback | backend/main.py:278-675 | the whole imperative engine returns exactly the specified outcome: the assessment, or the `ValueError` of the years conversion |
| Repair.ClampPercent | backend/main.py:903 | the result lies in 0..100 and equals its argument inside that range |
| Repair.RepairScore | backend/main.py:902-905 | the score becomes an int in 0..100; only an `int()` overflow escapes, as `OverflowError`; any other `int()` failure, such as a string of more than 4300 digits, gives 50 |
| Repair.RepairList | backend/main.py:908-910 | the field becomes a list, and a list is kept as it is |
| Repair.RepairedErrIff | backend/main.py:887-912 | the repair fails exactly when the score is an infinite float, and then with `OverflowError` |
| Repair.RepairedShape | backend/main.py:887-912 | a repaired reply holds all five keys with an int score in 0..100 and two lists, keeps every other key, and gives a missing summary or email `""` |
| Repair.WithDefaultsShape | backend/main.py:887-899 | filling defaults keeps every key and value and gives each missing required key its default |
| Repair.RepairStepsShape | backend/main.py:901-910 | the score and list updates touch only those three fields and leave them well typed |
| Repair.RepairedScore | backend/main.py:894-905 | the score is the clamped `int()` of the reply's score, or 50 when it is missing or `int()` rejects it |
| Repair.RepairedLists | backend/main.py:896-910 | a list field keeps a list, becomes `[str(v)]` for a truthy non-list, and `[]` when falsy or missing |
| Repair.RepairedIdempotent | backend/main.py:887-912 | a complete, in-range reply with list fields is returned unchanged |
| Repair.Guardrail | backend/main.py:846-847 | a score below 35 is raised to 35 exactly when strengths are listed; nothing else changes |
| Repair.GuardrailIdempotent | backend/main.py:846-847 | applying the guardrail twice is applying it once |
| Repair.FillDefaults | backend/main.py:887-899 | the defaults loop yields the reply with every missing required key at its default |
| Repair.ApplyDefaults | backend/main.py:893-899 | iterating the missing keys in any order gives each its default and keeps every other entry |
| Repair.CoerceLists | backend/main.py:908-910 | the list loop coerces `key_strengths`, then `missing_skills` |
| Repair.RepairDecoded | backend/main.py:887-912 | the in-place repair of a decoded reply fails only with `OverflowError`, and otherwise yields a well-formed dictionary |
| Repair.ParseJsonResponse | backend/main.py:857-912 | clean, find the JSON span, decode and repair; the result is well formed, or an error that is `ValueError` or `OverflowError` |
| Providers.Clip | backend/main.py:764 | the clipped resume is a prefix of at most 6000 characters, equal to the resume exactly when that is short enough |
| Providers.ClipIdempotent | backend/main.py:764 | clipping twice is clipping once |
| Providers.KeywordDictWellFormed | backend/main.py:669-675 | the engine's dictionary is well formed, with a score in 25..95 and non-empty lists |
| Providers.ParsedWellFormed | backend/main.py:857-912 | a reply that repairs successfully is well formed |
| Providers.GroqOutcome | backend/main.py:756-854 | the Groq tier raises `ValueError` when unavailable or on any failure; a result is well formed, and has a score of at least 35 when strengths are listed; the outcome depends only on the clipped resume |
| Providers.GroqInfiniteScoreFails | backend/main.py:841-854 | an infinite score in the reply makes the whole Groq call raise `ValueError` |
| Providers.GroqScore | backend/main.py:841-850 | a reply that repairs successfully is returned with the guardrail applied to its score |
| Providers.GeminiReply | backend/main.py:231-269 | the model's answer is used exactly when the client is available, the call returns, a span is found and it decodes; it is then the decoded span |
| Providers.GeminiResultSource | backend/main.py:215-276 | a Gemini result is either exactly what the model sent or the keyword engine's outcome, and the client raises exactly when its own attempt falls through and the engine raises |
| Providers.GroqClient.constructor | backend/main.py:704-723 | a client exists exactly when the environment has a non-empty key and the SDK client could be built; a failed build clears the key |
| Providers.GroqClient.AnalyzeResume | backend/main.py:734-854 | the client's call yields the specified Groq outcome for its availability |
| Providers.GeminiClient.constructor | backend/main.py:185-209 | the key is the environment's, and a `gemini-pro` model exists exactly when the key is non-empty and the SDK could be configured |
| Providers.GeminiClient.TryGenerate | backend/main.py:231-269 | the `try` block yields the decoded answer exactly when it does not fall through |
| Providers.GeminiClient.AnalyzeResume | backend/main.py:215-276 | the decoded model answer when there is one, else the keyword engine's outcome, including its exception |
| Providers.KeywordDictRaises | backend/main.py:276 | the keyword engine the client falls back to raises exactly when the years capture of the lowercased resume is over-long, and then `ValueError` |
| Orchestrator.SelectTier | backend/main.py:1178-1223 | tiers are consulted in chain order, each at most once; Groq only when available; Gemini only when available and Groq returned nothing; the engine only when neither returned; the hard default only when the engine raises too; the result is the deciding tier's dictionary |
| Orchestrator.RunTiers | backend/main.py:1178-1223 | the guarded assignments to `ai_result` and `ai_source` compute exactly the chain's outcome |
| Orchestrator.NormalizeList | backend/main.py:1228-1229 | `value or []` validated as a list: falsy gives `[]`, a list is kept, anything else is a validation error |
| Orchestrator.NormalizeText | backend/main.py:1230-1231 | `value or ""` validated as a string: falsy gives `""`, a string is kept, anything else is a validation error |
| Orchestrator.Normalize | backend/main.py:1226-1232 | validation succeeds exactly when `int()` accepts the score (so not a string of more than 4300 digits) and the fields have valid types; the score is then clamped to 0..100, and is 0 when missing; an `int()` failure is passed on |
| Orchestrator.NormalizeRoundTrip | backend/main.py:1226-1232 | validating a validated result gives the same result |
| Orchestrator.NormalizeWellFormed | backend/main.py:1226-1232 | a well-formed dictionary keeps its score and lists through validation |
| Orchestrator.NormalizeBadScore | backend/main.py:1227 | a null, list or object score makes validation raise `TypeError` |
| Orchestrator.HardDefaultNormalizes | backend/main.py:1216-1232 | the hard default validates to score 0, empty lists and the "temporarily unavailable" summary |
| Orchestrator.KeywordNormalizes | backend/main.py:1226-1232 | the engine's dictionary validates to exactly the engine's assessment |
| Orchestrator.EngineResultNormalizes | backend/main.py:1206-1232 | a keyword result the engine returns validates without error, to a score in 25..95 and two non-empty lists |
| Orchestrator.DefaultReachable | backend/main.py:1206-1232 | with both clients unavailable, a resume of more than 4300 digits followed by " years experience" takes the hard default after consulting only the engine, and validates to score 0 and the "temporarily unavailable" summary |
| Orchestrator.GroqTier | backend/main.py:1181-1192 | Tier 1 is skipped exactly when unavailable; a returned dictionary is well formed and respects the guardrail |
| Orchestrator.GeminiTier | backend/main.py:1194-1203 | Tier 2 is skipped exactly when unavailable; it raises exactly when the model's answer is unusable and the keyword fallback raises; a returned dictionary is the model's decoded answer or the keyword result |
| Orchestrator.ChainOutcome | backend/main.py:1178-1223 | the hard default is reached exactly when the engine raises, Groq returns nothing and Gemini has no usable answer; the engine decides only when Gemini is unavailable, with its own dictionary; a Groq result validates to its own score |
| Orchestrator.TryGroq | backend/main.py:1181-1192 | the Tier 1 block asks the Groq client only when available and catches its exception |
| Orchestrator.TryGemini | backend/main.py:1194-1203 | the Tier 2 block asks the Gemini client only when available |
| Orchestrator.ChooseResult | backend/main.py:1178-1223 | the endpoint's guarded blocks on the two clients and the engine yield exactly the chain's result, source and consulted tiers, the hard default when the engine raises |
| Orchestrator.AnalyzeResume | backend/main.py:1178-1232 | the validated response of the chain: from the hard default only when the engine raises, and then score 0 with the "temporarily unavailable" summary; a score in 0..100 whenever validation succeeds |

## Left out

- The HTTP layer is not modelled: routing, the upload checks, the empty-job check, the mapping of exceptions to status codes, and the `/health` and `/analyze-resume/basic` endpoints. It is framework plumbing. The endpoint turns a validation error of the response fields into a 400 reply; the model stops at that error.
- CORS configuration and server startup are not modelled. They are static configuration.
- PDF text extraction (`extract_text_from_pdf`) and the `clean_text` regex passes are not modelled. They rely on a foreign PDF library and heuristic rewrites. The extracted text is an input here.
- The remote SDK calls are parameters. `complete` stands for Groq's chat completion on the built prompt, `generate` for Gemini's `generate_content`, and either may fail. `decode` stands for `json.loads`, and `repr` for `str()` of a float, a list or an object. `str()` of strings, integers, booleans and null is modelled.
- Reading API keys from the environment and building the SDK objects are constructor parameters: the key, and whether the build succeeded.
- Prompt wording, model names other than `gemini-pro`, sampling settings and all logging are left out. They carry no behaviour of the core.
- The skill weights are integer tenths, not floats. Float rounding at an exact integer boundary of `matched * 60 / total` is not modelled.
- `lower`, `title` and digit tests cover ASCII letters and digits only. `strip` and `\s` use Python's whitespace set.
- Text.ParseInt: models `int()` on a string as surrounding whitespace, an optional sign and at most 4300 ASCII digits. Python also accepts `_` between digits (`int("8_5") == 85`) and non-ASCII digits; the model rejects both. A Groq reply with such a string score therefore gets the default 50 in the model, where the source keeps the number.
- Orchestrator.AnalyzeResume: the endpoint always passes the keyword engine as `engine`. It is `Providers.KeywordDict`, which `Engine.AnalyzeWithFallback` computes. The endpoint-level facts about that engine are stated once in `Orchestrator.EngineResultNormalizes`, not repeated in this method's contract.
- Json.PyStr: `str()` of an integer of more than 4300 digits raises `ValueError` in CPython, but the model writes the digits out. `json.loads` refuses such numbers in the first place, so no decoded reply holds one.
- The 4300-digit limit is CPython's default. Changing it with `sys.set_int_max_str_digits` or the `PYTHONINTMAXSTRDIGITS` variable is not modelled.
- Narrative.EmailDraftPhrases: states only that the phrases appear from their thresholds, not that they are absent below them. The email also embeds skill names. The "exactly from" direction is stated for each chosen phrase on its own, in `Narrative.InterviewFormat`, `Narrative.CallMedium` and `Narrative.Urgency`.
- Engine.EngineInvitationPhrases: weaker in the same way as `Narrative.EmailDraftPhrases`, and for the same reason.
