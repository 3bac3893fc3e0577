/**
 * The `/review` routes of the AI service: a single review behind the cache, and a batch of
 * up to ten files reviewed one after the other.
 */
module ReviewRoutes {
  import opened Wrappers
  import Json
  import Http
  import Cache
  import AiService
  import StaticAnalysis

  const ReviewTtlSeconds: nat := 3600
  const BatchLimit: nat := 10

  // ---------------------------------------------------------------- severity

  predicate AnyStatic(issues: seq<StaticAnalysis.Issue>, severity: string) {
    exists i :: 0 <= i < |issues| && issues[i].severity == severity
  }

  predicate AnyAi(issues: seq<Json.Json>, severity: string) {
    exists i :: 0 <= i < |issues| && Json.Get(issues[i], "severity") == Some(Json.JStr(severity))
  }

  /** `calculateOverallSeverity`: the worst severity among both issue lists. */
  function OverallSeverity(staticIssues: seq<StaticAnalysis.Issue>, aiIssues: seq<Json.Json>): (r: string)
    ensures r == "error" <==> AnyStatic(staticIssues, "error") || AnyAi(aiIssues, "error")
    ensures r == "warning" <==> !(AnyStatic(staticIssues, "error") || AnyAi(aiIssues, "error"))
                                && (AnyStatic(staticIssues, "warning") || AnyAi(aiIssues, "warning"))
    ensures r == "error" || r == "warning" || r == "info"
  {
    if AnyStatic(staticIssues, "error") || AnyAi(aiIssues, "error") then "error"
    else if AnyStatic(staticIssues, "warning") || AnyAi(aiIssues, "warning") then "warning"
    else "info"
  }

  /** An error anywhere, static or AI, decides the severity whatever else is found. */
  lemma ErrorDominates(staticIssues: seq<StaticAnalysis.Issue>, aiIssues: seq<Json.Json>, extra: Json.Json)
    requires OverallSeverity(staticIssues, aiIssues) == "error"
    ensures OverallSeverity(staticIssues, aiIssues + [extra]) == "error"
  {
    if AnyAi(aiIssues, "error") {
      var i :| 0 <= i < |aiIssues| && Json.Get(aiIssues[i], "severity") == Some(Json.JStr("error"));
      assert (aiIssues + [extra])[i] == aiIssues[i];
    }
  }

  // ---------------------------------------------------------------- single review

  datatype Body =
    | Failed(failure: Http.Failure)
    | Value(value: Json.Json)
    | Results(results: seq<FileResult>)

  /** The `notEmpty` checks on `code` and `language`. */
  function Validate(code: Option<string>, language: Option<string>): (errors: seq<string>)
    ensures errors == [] <==> code.Some? && code.value != "" && language.Some? && language.value != ""
  {
    (if code.None? || code.value == "" then ["Code is required"] else [])
    + (if language.None? || language.value == "" then ["Language is required"] else [])
  }

  /** What a cache hit sends: the `aiReview` member of a wrapper object when it is truthy, and
   *  the cached value itself otherwise. */
  function Unwrap(cached: Json.Json): (r: Json.Json)
    ensures Json.TruthyOpt(Json.Get(cached, "aiReview")) ==> r == Json.Get(cached, "aiReview").value
    ensures !Json.TruthyOpt(Json.Get(cached, "aiReview")) ==> r == cached
  {
    match Json.Get(cached, "aiReview")
    case Some(inner) => if Json.Truthy(inner) then inner else cached
    case None => cached
  }

  /** Unwrapping a wrapper around a stored review gives the review. */
  lemma UnwrapWrapper(review: AiService.Review)
    ensures Unwrap(Json.JObj(map["aiReview" := AiService.ToJson(review)])) == AiService.ToJson(review)
  {
  }

  /**
   * POST /review at time `now`. The cache key is 'review:' and a base64 prefix of the code only
   * (language and file name play no part); a live hit is answered from the cache, a miss runs
   * the review and caches it for an hour. The static analysis it also runs is discarded and not
   * modelled.
   */
  function ReviewOne(code: Option<string>, language: Option<string>, cache: Cache.Store, now: nat,
                     outcome: AiService.ModelOutcome, parse: string -> Option<Json.Json>)
    : (r: (Http.Reply<Body>, Cache.Store))
    ensures Validate(code, language) != [] ==>
              r == (Http.Reply(400, Failed(Http.ValidationErrors(Validate(code, language)))), cache)
    ensures Validate(code, language) == [] && Cache.Hit(cache, Cache.Key("review:", code.value), now).Some? ==>
              r == (Http.Reply(200, Value(Unwrap(Cache.Hit(cache, Cache.Key("review:", code.value), now).value))), cache)
    ensures Validate(code, language) == [] && Cache.Hit(cache, Cache.Key("review:", code.value), now).None? ==>
              var review := AiService.ToJson(AiService.ReviewCode(outcome, parse));
              && r.0 == Http.Reply(200, Value(review))
              && r.1 == cache[Cache.Key("review:", code.value) := Cache.Entry(review, now, ReviewTtlSeconds)]
  {
    var errors := Validate(code, language);
    if errors != [] then (Http.Reply(400, Failed(Http.ValidationErrors(errors))), cache)
    else
      var key := Cache.Key("review:", code.value);
      match Cache.Hit(cache, key, now)
      case Some(cached) => (Http.Reply(200, Value(Unwrap(cached))), cache)
      case None =>
        var review := AiService.ToJson(AiService.ReviewCode(outcome, parse));
        (Http.Reply(200, Value(review)), Cache.Put(cache, key, review, ReviewTtlSeconds, now))
  }

  /** A stored review is a truthy object without an `aiReview` member, so a hit on it is
   *  answered with the review itself. */
  lemma StoredReviewUnwraps(review: AiService.Review)
    ensures Json.Truthy(AiService.ToJson(review))
    ensures Unwrap(AiService.ToJson(review)) == AiService.ToJson(review)
  {
    assert Json.Get(AiService.ToJson(review), "aiReview").None?;
  }

  /** A review that was just cached is what a request for the same code gets back within the
   *  hour, whatever the model would say then. */
  lemma SecondRequestServedFromCache(code: string, language: string, cache: Cache.Store, now: nat, later: nat,
                                     first: AiService.ModelOutcome, second: AiService.ModelOutcome,
                                     parse: string -> Option<Json.Json>)
    requires code != "" && language != ""
    requires Cache.Hit(cache, Cache.Key("review:", code), now).None?
    requires now <= later < now + ReviewTtlSeconds * 1000
    ensures var (reply1, cache1) := ReviewOne(Some(code), Some(language), cache, now, first, parse);
            ReviewOne(Some(code), Some(language), cache1, later, second, parse).0 == reply1
  {
    var key := Cache.Key("review:", code);
    var stored := AiService.ReviewCode(first, parse);
    StoredReviewUnwraps(stored);
    var review := AiService.ToJson(stored);
    var cache1 := cache[key := Cache.Entry(review, now, ReviewTtlSeconds)];
    assert Cache.Hit(cache1, key, later) == Some(review);
  }

  /** Once the hour has passed the cached review has expired: the same request runs the
   *  review again and answers what the model says now. */
  lemma ExpiredReviewAsksAgain(code: string, language: string, cache: Cache.Store, now: nat, later: nat,
                               first: AiService.ModelOutcome, second: AiService.ModelOutcome,
                               parse: string -> Option<Json.Json>)
    requires code != "" && language != ""
    requires Cache.Hit(cache, Cache.Key("review:", code), now).None?
    requires now + ReviewTtlSeconds * 1000 <= later
    ensures var cache1 := ReviewOne(Some(code), Some(language), cache, now, first, parse).1;
            ReviewOne(Some(code), Some(language), cache1, later, second, parse).0
              == Http.Reply(200, Value(AiService.ToJson(AiService.ReviewCode(second, parse))))
  {
    var key := Cache.Key("review:", code);
    var review := AiService.ToJson(AiService.ReviewCode(first, parse));
    var cache1 := cache[key := Cache.Entry(review, now, ReviewTtlSeconds)];
    assert Cache.Hit(cache1, key, later).None?;
  }

  // ---------------------------------------------------------------- batch

  datatype FileRequest = FileRequest(code: Option<string>, language: Option<string>, fileName: Option<string>)

  datatype FileResult =
    | Processed(fileName: Option<string>, language: Option<string>, staticAnalysis: StaticAnalysis.Analysis,
                aiReview: AiService.Review, totalIssues: nat, severity: string)
    | FileFailed(fileName: Option<string>, error: string)

  /** What reviewing one file gave: both analyses, or an exception. */
  datatype FileOutcome = Reviewed(analysis: StaticAnalysis.Analysis, review: AiService.Review) | Crashed

  /**
   * `calculateOverallSeverity` reads `issue.severity` on every issue its first `some` pass
   * reaches, and on a null AI issue that throws. Static issues come first and are never null,
   * so it throws exactly when no static issue is an error and a null AI issue comes before
   * any AI error issue.
   */
  predicate SeverityThrows(staticIssues: seq<StaticAnalysis.Issue>, aiIssues: seq<Json.Json>) {
    !AnyStatic(staticIssues, "error")
    && exists j :: 0 <= j < |aiIssues| && aiIssues[j] == Json.JNull && !AnyAi(aiIssues[..j], "error")
  }

  /** The result for one file: an exception while reviewing it, or while ranking its issues,
   *  gives 'Failed to process file'. */
  function ProcessFile(f: FileRequest, outcome: FileOutcome): (r: FileResult)
    ensures r == FileFailed(f.fileName, "Failed to process file") <==>
              outcome.Crashed? || (outcome.Reviewed? && SeverityThrows(outcome.analysis.issues, outcome.review.issues))
    ensures r.Processed? <==> outcome.Reviewed? && !SeverityThrows(outcome.analysis.issues, outcome.review.issues)
    ensures r.Processed? ==> r.fileName == f.fileName && r.language == f.language
    ensures r.Processed? ==> r.staticAnalysis == outcome.analysis && r.aiReview == outcome.review
    ensures r.Processed? ==> r.totalIssues == |outcome.analysis.issues| + |outcome.review.issues|
    ensures r.Processed? ==> r.severity == OverallSeverity(outcome.analysis.issues, outcome.review.issues)
  {
    match outcome
    case Crashed => FileFailed(f.fileName, "Failed to process file")
    case Reviewed(a, review) =>
      if SeverityThrows(a.issues, review.issues) then FileFailed(f.fileName, "Failed to process file")
      else
        Processed(f.fileName, f.language, a, review, |a.issues| + |review.issues|,
                  OverallSeverity(a.issues, review.issues))
  }

  /** A model reply whose first issue is null fails its file unless static analysis found an
   *  error. */
  lemma LeadingNullIssueFailsFile(f: FileRequest, a: StaticAnalysis.Analysis, review: AiService.Review)
    requires !AnyStatic(a.issues, "error")
    requires |review.issues| >= 1 && review.issues[0] == Json.JNull
    ensures ProcessFile(f, Reviewed(a, review)) == FileFailed(f.fileName, "Failed to process file")
  {
    assert !AnyAi(review.issues[..0], "error");
  }

  /** An AI error issue ahead of every null issue ends the `some` pass before it reaches a null:
   *  the file is processed with severity 'error'. */
  lemma ErrorBeforeNullIssue(f: FileRequest, a: StaticAnalysis.Analysis, review: AiService.Review)
    requires |review.issues| >= 1 && Json.Get(review.issues[0], "severity") == Some(Json.JStr("error"))
    ensures ProcessFile(f, Reviewed(a, review)).Processed?
    ensures ProcessFile(f, Reviewed(a, review)).severity == "error"
  {
    forall j | 0 < j < |review.issues|
      ensures AnyAi(review.issues[..j], "error")
    {
      assert review.issues[..j][0] == review.issues[0];
    }
  }

  /** The batch checks: `files` must be an array, then every file (not only the first ten)
   *  needs code, then every file needs a language. */
  function ValidateBatch(files: Option<seq<FileRequest>>): (errors: seq<string>)
    ensures files.None? ==> errors == ["Files must be an array"]
    ensures files.Some? ==> (errors == [] <==> forall i :: 0 <= i < |files.value| ==>
                                                 Validate(files.value[i].code, files.value[i].language) == [])
  {
    match files
    case None => ["Files must be an array"]
    case Some(fs) => MissingCode(fs) + MissingLanguage(fs)
  }

  function MissingCode(fs: seq<FileRequest>): (errors: seq<string>)
    ensures errors == [] <==> forall i :: 0 <= i < |fs| ==> fs[i].code.Some? && fs[i].code.value != ""
  {
    if |fs| == 0 then []
    else (if fs[0].code.None? || fs[0].code.value == "" then ["Each file must have code"] else [])
         + MissingCode(fs[1..])
  }

  function MissingLanguage(fs: seq<FileRequest>): (errors: seq<string>)
    ensures errors == [] <==> forall i :: 0 <= i < |fs| ==> fs[i].language.Some? && fs[i].language.value != ""
  {
    if |fs| == 0 then []
    else (if fs[0].language.None? || fs[0].language.value == "" then ["Each file must have language"] else [])
         + MissingLanguage(fs[1..])
  }

  /** The first ten files, each mapped to its result in input order. */
  function ProcessAll(fs: seq<FileRequest>, outcome: FileRequest -> FileOutcome): (rs: seq<FileResult>)
    ensures |rs| == if |fs| < BatchLimit then |fs| else BatchLimit
    ensures forall i :: 0 <= i < |rs| ==> rs[i] == ProcessFile(fs[i], outcome(fs[i]))
  {
    var n := if |fs| < BatchLimit then |fs| else BatchLimit;
    seq(n, i requires 0 <= i < n => ProcessFile(fs[i], outcome(fs[i])))
  }

  /** POST /review/batch: 400 on a validation error, otherwise one result per processed file;
   *  a failing file does not stop the others. */
  function Batch(files: Option<seq<FileRequest>>, outcome: FileRequest -> FileOutcome): (r: Http.Reply<Body>)
    ensures ValidateBatch(files) != [] ==> r == Http.Reply(400, Failed(Http.ValidationErrors(ValidateBatch(files))))
    ensures ValidateBatch(files) == [] ==> r == Http.Reply(200, Results(ProcessAll(files.value, outcome)))
  {
    var errors := ValidateBatch(files);
    if errors != [] then Http.Reply(400, Failed(Http.ValidationErrors(errors)))
    else Http.Reply(200, Results(ProcessAll(files.value, outcome)))
  }

  /** Files after the tenth never influence the reply. */
  lemma BatchIgnoresTail(fs: seq<FileRequest>, extra: seq<FileRequest>, outcome: FileRequest -> FileOutcome)
    requires |fs| >= BatchLimit
    ensures ProcessAll(fs + extra, outcome) == ProcessAll(fs, outcome)
  {
    assert forall i :: 0 <= i < BatchLimit ==> (fs + extra)[i] == fs[i];
  }
}
