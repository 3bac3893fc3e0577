/**
 * The `/analysis` routes of the AI service: request validation, the complexity route's
 * cache lookup, the explanation route, and the risk classification of a security analysis.
 * The complexity, security, performance and suggestion handlers call service functions that
 * the services do not define, so past validation (and, for complexity, a cache miss) they
 * always end in their error reply.
 */
module AnalysisRoutes {
  import opened Wrappers
  import Json
  import Http
  import Cache
  import AiService

  // ---------------------------------------------------------------- risk level

  datatype Risk = Low | Medium | High | Critical

  /** The order of risk levels. */
  function Rank(r: Risk): nat {
    match r
    case Low => 0
    case Medium => 1
    case High => 2
    case Critical => 3
  }

  /** The level for a number of high-severity findings. */
  function RiskOf(totalHigh: nat): (r: Risk)
    ensures r == Critical <==> totalHigh > 3
    ensures r == High <==> 1 < totalHigh <= 3
    ensures r == Medium <==> totalHigh == 1
    ensures r == Low <==> totalHigh == 0
  {
    if totalHigh > 3 then Critical
    else if totalHigh > 1 then High
    else if totalHigh > 0 then Medium
    else Low
  }

  /** More high-severity findings never give a lower level. */
  lemma RiskMonotone(a: nat, b: nat)
    requires a <= b
    ensures Rank(RiskOf(a)) <= Rank(RiskOf(b))
  {
  }

  /** The items whose `field` is the string 'high'. */
  function CountHigh(items: seq<Json.Json>, field: string): (n: nat)
    ensures n <= |items|
  {
    if |items| == 0 then 0
    else CountHigh(items[..|items| - 1], field)
         + (if Json.Get(items[|items| - 1], field) == Some(Json.JStr("high")) then 1 else 0)
  }

  /** Appending an item adds one exactly when it is high. */
  lemma CountHighAppend(items: seq<Json.Json>, field: string, item: Json.Json)
    ensures CountHigh(items + [item], field)
            == CountHigh(items, field) + (if Json.Get(item, field) == Some(Json.JStr("high")) then 1 else 0)
  {
    assert (items + [item])[..|items|] == items;
  }

  /** `list?.filter(x => x[field] === 'high')?.length || 0`: a missing list counts 0. */
  function HighIn(list: Option<seq<Json.Json>>, field: string): (n: nat)
    ensures list.None? ==> n == 0
    ensures list.Some? ==> n == CountHigh(list.value, field)
  {
    if list.Some? then CountHigh(list.value, field) else 0
  }

  /** `calculateRiskLevel`: static vulnerabilities with severity 'high' and AI risks with
   *  level 'high' are added up. */
  function CalculateRiskLevel(vulnerabilities: Option<seq<Json.Json>>, risks: Option<seq<Json.Json>>): (r: Risk)
    ensures r == RiskOf(HighIn(vulnerabilities, "severity") + HighIn(risks, "level"))
    ensures vulnerabilities.None? && risks.None? ==> r == Low
  {
    RiskOf(HighIn(vulnerabilities, "severity") + HighIn(risks, "level"))
  }

  /** Adding a high-severity vulnerability never lowers the level. */
  lemma AddedVulnerabilityNeverLowers(vulnerabilities: seq<Json.Json>, risks: Option<seq<Json.Json>>, v: Json.Json)
    ensures Rank(CalculateRiskLevel(Some(vulnerabilities), risks))
            <= Rank(CalculateRiskLevel(Some(vulnerabilities + [v]), risks))
  {
    CountHighAppend(vulnerabilities, "severity", v);
    RiskMonotone(HighIn(Some(vulnerabilities), "severity") + HighIn(risks, "level"),
                 HighIn(Some(vulnerabilities + [v]), "severity") + HighIn(risks, "level"));
  }

  // ---------------------------------------------------------------- validation

  /** The `notEmpty` checks on `code` and `language`, in that order: absent and '' both fail. */
  function Validate(code: Option<string>, language: Option<string>): (errors: seq<string>)
    ensures errors == [] <==> code.Some? && code.value != "" && language.Some? && language.value != ""
    ensures |errors| <= 2
    ensures (code.None? || code.value == "") ==> errors[0] == "Code is required"
  {
    (if code.None? || code.value == "" then ["Code is required"] else [])
    + (if language.None? || language.value == "" then ["Language is required"] else [])
  }

  datatype Body =
    | Failed(failure: Http.Failure)
    | Value(value: Json.Json)
    | Explanation(timestamp: nat, explanation: string)

  // ---------------------------------------------------------------- routes

  /** POST /complexity at time `now`: 400 on a validation error, the cached value on a live hit, and otherwise
   *  500 (the analysis it calls does not exist), so the cache is never written. */
  function Complexity(code: Option<string>, language: Option<string>, cache: Cache.Store, now: nat): (r: Http.Reply<Body>)
    ensures Validate(code, language) != [] ==>
              r == Http.Reply(400, Failed(Http.ValidationErrors(Validate(code, language))))
    ensures Validate(code, language) == [] && Cache.Hit(cache, Cache.Key("complexity:", code.value), now).Some? ==>
              r == Http.Reply(200, Value(Cache.Hit(cache, Cache.Key("complexity:", code.value), now).value))
    ensures Validate(code, language) == [] && Cache.Hit(cache, Cache.Key("complexity:", code.value), now).None? ==>
              r == Http.Reply(500, Failed(Http.ErrorBody("Failed to analyze complexity")))
  {
    var errors := Validate(code, language);
    if errors != [] then Http.Reply(400, Failed(Http.ValidationErrors(errors)))
    else
      match Cache.Hit(cache, Cache.Key("complexity:", code.value), now)
      case Some(v) => Http.Reply(200, Value(v))
      case None => Http.Reply(500, Failed(Http.ErrorBody("Failed to analyze complexity")))
  }

  /** Two requests whose code agrees on the first 24 characters get the same complexity reply. */
  lemma ComplexityKeyedByPrefix(a: string, b: string, language: Option<string>, cache: Cache.Store, now: nat)
    requires |a| >= 24 && |b| >= 24 && a[..24] == b[..24]
    ensures Complexity(Some(a), language, cache, now) == Complexity(Some(b), language, cache, now)
  {
    Cache.KeySharedPrefix("complexity:", a, b);
  }

  /** POST /security, /performance and /suggestions: validation, then the error reply, because
   *  the services they call are not defined. */
  function Unavailable(code: Option<string>, language: Option<string>, error: string): (r: Http.Reply<Body>)
    ensures Validate(code, language) != [] <==> r.status == 400
    ensures r.status != 400 ==> r == Http.Reply(500, Failed(Http.ErrorBody(error)))
  {
    var errors := Validate(code, language);
    if errors != [] then Http.Reply(400, Failed(Http.ValidationErrors(errors)))
    else Http.Reply(500, Failed(Http.ErrorBody(error)))
  }

  /** POST /explain: validation, then the model's explanation stamped with the time, or 500. */
  function Explain(code: Option<string>, language: Option<string>, outcome: AiService.ModelOutcome, now: nat)
    : (r: Http.Reply<Body>)
    ensures Validate(code, language) != [] ==> r.status == 400
    ensures Validate(code, language) == [] && outcome.Replied? ==> r == Http.Reply(200, Explanation(now, outcome.text))
    ensures Validate(code, language) == [] && outcome.Threw? ==>
              r == Http.Reply(500, Failed(Http.ErrorBody("Failed to explain code")))
  {
    var errors := Validate(code, language);
    if errors != [] then Http.Reply(400, Failed(Http.ValidationErrors(errors)))
    else
      match AiService.ExplainCode(outcome)
      case Ok(text) => Http.Reply(200, Explanation(now, text))
      case Err(_) => Http.Reply(500, Failed(Http.ErrorBody("Failed to explain code")))
  }
}
