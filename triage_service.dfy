/** Triage result resolution (services/geminiService.ts). The call to the
    external model is an oracle: its outcome is either `Failure` (the request
    threw, or its text was not valid JSON) or the fields of the parsed object,
    each possibly absent. An empty response text parses as `{}`, that is
    `Parsed(None, None, None)`. */
module TriageService {
  import opened ClinicTypes

  datatype Response =
    | Failure
    | Parsed(level: Option<string>, score: Option<int>, justification: Option<string>)

  datatype TriageResult = TriageResult(level: TriageLevel, score: int, justification: string)

  const DefaultScore: int := 50
  const DefaultJustification: string := "Standard assessment"

  /** The deterministic answer when the analysis fails, from the self-reported urgency. */
  function Fallback(urgency: int): (r: TriageResult)
    ensures urgency > 8 ==> r.level == Critical && r.score == 90
    ensures 5 < urgency <= 8 ==> r.level == Intermediate && r.score == 60
    ensures urgency <= 5 ==> r.level == Normal && r.score == 30
  {
    if urgency > 8 then TriageResult(Critical, 90, "High self-reported urgency (Fallback)")
    else if urgency > 5 then TriageResult(Intermediate, 60, "Moderate urgency (Fallback)")
    else TriageResult(Normal, 30, "Standard triage (Fallback)")
  }

  /** `x || default` on an optional string: absent and "" both take the default. */
  function OrString(x: Option<string>, default: string): string {
    if x.Some? && x.value != "" then x.value else default
  }

  /** `analyzeTriage(symptoms, urgency)` once the oracle has answered. */
  function AnalyzeTriage(response: Response, urgency: int): (r: TriageResult)
    ensures response.Failure? ==> r == Fallback(urgency)
    ensures response.Parsed? ==>
      && (if response.level.Some? && response.level.value != ""
          then LevelName(r.level) == response.level.value
          else r.level == Normal)
      && (if response.score.Some? && response.score.value != 0
          then r.score == response.score.value
          else r.score == DefaultScore)
      && (if response.justification.Some? && response.justification.value != ""
          then r.justification == response.justification.value
          else r.justification == DefaultJustification)
  {
    match response
    case Failure => Fallback(urgency)
    case Parsed(level, score, justification) =>
      TriageResult(
        if level.Some? && level.value != "" then LevelFromName(level.value) else Normal,
        if score.Some? && score.value != 0 then score.value else DefaultScore,
        OrString(justification, DefaultJustification))
  }

  /** The fallback never answers EMERGENCY, and its score is 30 per step of the
      level it picks (NORMAL 30, INTERMEDIATE 60, CRITICAL 90). */
  lemma FallbackLevels(urgency: int)
    ensures Fallback(urgency).level != Emergency && Listed(Fallback(urgency).level)
    ensures Fallback(urgency).score == 30 * Rank(Fallback(urgency).level)
  {
  }

  /** More urgency never gives a lower fallback level or a lower score. */
  lemma FallbackMonotone(u1: int, u2: int)
    requires u1 <= u2
    ensures Rank(Fallback(u1).level) <= Rank(Fallback(u2).level)
    ensures Fallback(u1).score <= Fallback(u2).score
  {
    FallbackLevels(u1);
    FallbackLevels(u2);
  }

  /** On failure the outcome depends on the urgency band alone, whatever the
      exact urgency within the band. */
  lemma FailureDependsOnBandOnly(u1: int, u2: int)
    requires (u1 > 8) == (u2 > 8) && (u1 > 5) == (u2 > 5)
    ensures AnalyzeTriage(Failure, u1) == AnalyzeTriage(Failure, u2)
  {
  }

  /** A parsed answer whose fields are all present and non-empty passes through
      unchanged (the level becoming the enum member of that name), and the
      self-reported urgency plays no part in it. */
  lemma ParsedPassesThrough(level: string, score: int, justification: string, u1: int, u2: int)
    requires level != "" && score != 0 && justification != ""
    ensures AnalyzeTriage(Parsed(Some(level), Some(score), Some(justification)), u1)
            == TriageResult(LevelFromName(level), score, justification)
    ensures AnalyzeTriage(Parsed(Some(level), Some(score), Some(justification)), u1)
            == AnalyzeTriage(Parsed(Some(level), Some(score), Some(justification)), u2)
  {
  }

  /** An empty object (`response.text` empty or `{}`) gets all three defaults. */
  lemma EmptyAnswerDefaults(urgency: int)
    ensures AnalyzeTriage(Parsed(None, None, None), urgency)
            == TriageResult(Normal, DefaultScore, DefaultJustification)
  {
  }

  /** Every level the service hands out is one the program can hold. */
  lemma ResultLevelWellFormed(response: Response, urgency: int)
    ensures WellFormedLevel(AnalyzeTriage(response, urgency).level)
  {
  }
}
