/**
 * The AI service's review pipeline around the language model: the prompt it sends, the
 * normalisation of a JSON reply, the line-by-line reading of a free-text reply, and the
 * fallback review used when the reply cannot be read or the call fails.
 */
module AiService {
  import opened Wrappers
  import opened Text
  import Json

  /** A review as every reader of it sees it: all five fields present with the right types. */
  datatype Review = Review(score: real, summary: string, issues: seq<Json.Json>,
                           recommendations: seq<Json.Json>, compliments: seq<Json.Json>)

  const DefaultScore: real := 7.0

  function ListOr(o: Option<Json.Json>): seq<Json.Json> {
    if o.Some? && o.value.JArr? then o.value.items else []
  }

  /**
   * The defensive normalisation of a reply object: the score when it is a number (else 7),
   * the summary when it is a string (else ''), each list when it is an array (else []).
   */
  function Normalize(j: Json.Json): (r: Review)
    ensures (Json.Get(j, "overall_score").Some? && Json.Get(j, "overall_score").value.JNum?)
            ==> r.score == Json.Get(j, "overall_score").value.n
    ensures !(Json.Get(j, "overall_score").Some? && Json.Get(j, "overall_score").value.JNum?) ==> r.score == DefaultScore
    ensures r.summary == (match Json.Get(j, "summary") case Some(JStr(s)) => s case _ => "")
    ensures Json.Get(j, "issues").Some? && Json.Get(j, "issues").value.JArr? ==> r.issues == Json.Get(j, "issues").value.items
    ensures !(Json.Get(j, "issues").Some? && Json.Get(j, "issues").value.JArr?) ==> r.issues == []
    ensures Json.Get(j, "recommendations").Some? && Json.Get(j, "recommendations").value.JArr?
            ==> r.recommendations == Json.Get(j, "recommendations").value.items
    ensures !(Json.Get(j, "recommendations").Some? && Json.Get(j, "recommendations").value.JArr?)
            ==> r.recommendations == []
    ensures Json.Get(j, "compliments").Some? && Json.Get(j, "compliments").value.JArr?
            ==> r.compliments == Json.Get(j, "compliments").value.items
    ensures !(Json.Get(j, "compliments").Some? && Json.Get(j, "compliments").value.JArr?) ==> r.compliments == []
  {
    Review(
      match Json.Get(j, "overall_score") case Some(JNum(n)) => n case _ => DefaultScore,
      match Json.Get(j, "summary") case Some(JStr(s)) => s case _ => "",
      ListOr(Json.Get(j, "issues")),
      ListOr(Json.Get(j, "recommendations")),
      ListOr(Json.Get(j, "compliments")))
  }

  /** The JSON form of a review; normalising it gives the review back. */
  function ToJson(r: Review): Json.Json {
    Json.JObj(map["overall_score" := Json.JNum(r.score), "summary" := Json.JStr(r.summary),
                  "issues" := Json.JArr(r.issues), "recommendations" := Json.JArr(r.recommendations),
                  "compliments" := Json.JArr(r.compliments)])
  }

  /** Normalisation is the identity on well-formed reviews, so applying it twice is applying it once. */
  lemma NormalizeRoundTrip(r: Review, j: Json.Json)
    ensures Normalize(ToJson(r)) == r
    ensures Normalize(ToJson(Normalize(j))) == Normalize(j)
  {
  }

  // ---------------------------------------------------------------- the JSON span

  /** The greedy match of `/\{[\s\S]*\}/`: from the first '{' to the last '}' after it. */
  function BraceSpan(s: string): (r: Option<string>)
    ensures r.Some? ==> |r.value| >= 2 && r.value[0] == '{' && r.value[|r.value| - 1] == '}'
    ensures r.Some? ==> exists i :: OccursAt(s, r.value, i) && '{' !in s[..i] && '}' !in s[i + |r.value|..]
    ensures r.None? <==> !(exists i, j :: 0 <= i < j < |s| && s[i] == '{' && s[j] == '}')
  {
    var open := FirstIndex(s, '{');
    var close := LastIndex(s, '}');
    if open.Some? && close.Some? && open.value < close.value then
      var r := s[open.value..close.value + 1];
      assert OccursAt(s, r, open.value);
      Some(r)
    else
      NoPairOutsideSpan(s);
      None
  }

  lemma NoPairOutsideSpan(s: string)
    requires !(FirstIndex(s, '{').Some? && LastIndex(s, '}').Some? &&
               FirstIndex(s, '{').value < LastIndex(s, '}').value)
    ensures !(exists i, j :: 0 <= i < j < |s| && s[i] == '{' && s[j] == '}')
  {
  }

  // ---------------------------------------------------------------- fallback

  /** The review used when a reply cannot be read: one generic issue whose suggestion carries
   *  the first 200 characters of the reply text. */
  function Fallback(review: Json.Json): (r: Review)
    ensures |r.issues| == 1 && r.score == DefaultScore && r.compliments == []
    ensures r.recommendations == [Json.JStr("Manual review recommended")]
    ensures Json.Get(r.issues[0], "suggestion") ==
            Some(Json.JStr(if review.JStr? then Take(review.s, 200) + "..." else "No details available"))
  {
    var suggestion := if review.JStr? then Take(review.s, 200) + "..." else "No details available";
    Review(DefaultScore, "Review completed with basic analysis",
           [Json.JObj(map["type" := Json.JStr("general"), "severity" := Json.JStr("info"), "line" := Json.JNull,
                          "message" := Json.JStr("Please review the code manually"),
                          "suggestion" := Json.JStr(suggestion)])],
           [Json.JStr("Manual review recommended")], [])
  }

  // ---------------------------------------------------------------- the manual reader

  datatype Section = Unset | InIssues | InRecommendations

  /** The reader's state: the current section and the bullet texts gathered so far. */
  datatype Manual = Manual(section: Section, issueTexts: seq<string>, recommendationTexts: seq<string>)

  predicate IssuesHeader(line: string) {
    Contains(line, "**Issues**") || Contains(line, "**Problems**")
  }

  predicate RecommendationsHeader(line: string) {
    Contains(line, "**Recommendations**") || Contains(line, "**Suggestions**")
  }

  predicate IsBullet(line: string) {
    var t := Trim(line);
    StartsWith(t, "-") || StartsWith(t, "*")
  }

  /** The text of a bullet: after its marker, trimmed. */
  function BulletText(line: string): string
    requires IsBullet(line)
  {
    Trim(Trim(line)[1..])
  }

  /** What a line is to the reader; headers are recognised before bullets. */
  datatype LineKind = IssuesLine | RecommendationsLine | BulletLine(text: string) | OtherLine

  function Classify(line: string): (k: LineKind)
    ensures k == IssuesLine <==> IssuesHeader(line)
    ensures k == RecommendationsLine <==> !IssuesHeader(line) && RecommendationsHeader(line)
    ensures k.BulletLine? <==> !IssuesHeader(line) && !RecommendationsHeader(line) && IsBullet(line)
  {
    if IssuesHeader(line) then IssuesLine
    else if RecommendationsHeader(line) then RecommendationsLine
    else if IsBullet(line) then BulletLine(BulletText(line))
    else OtherLine
  }

  /** One line: headers switch section, bullets go to the current section, everything else
   *  is skipped. */
  function ReadLine(m: Manual, k: LineKind): Manual {
    match k
    case IssuesLine => m.(section := InIssues)
    case RecommendationsLine => m.(section := InRecommendations)
    case OtherLine => m
    case BulletLine(text) =>
      match m.section
      case InIssues => m.(issueTexts := m.issueTexts + [text])
      case InRecommendations => m.(recommendationTexts := m.recommendationTexts + [text])
      case Unset => m
  }

  /** The reader's state after the first `n` lines. */
  function ReadLines(kinds: seq<LineKind>, n: nat): (m: Manual)
    requires n <= |kinds|
    ensures |m.issueTexts| + |m.recommendationTexts| <= n
  {
    if n == 0 then Manual(Unset, [], []) else ReadLine(ReadLines(kinds, n - 1), kinds[n - 1])
  }

  /** The classified lines of a reply. */
  function Kinds(lines: seq<string>): (ks: seq<LineKind>)
    ensures |ks| == |lines|
    ensures forall i :: 0 <= i < |ks| ==> ks[i] == Classify(lines[i])
  {
    seq(|lines|, i requires 0 <= i < |lines| => Classify(lines[i]))
  }

  predicate IsHeader(k: LineKind) {
    k == IssuesLine || k == RecommendationsLine
  }

  /** Bullets seen before any section header are dropped. */
  lemma {:induction false} BulletsBeforeHeaderDropped(kinds: seq<LineKind>, n: nat)
    requires n <= |kinds|
    requires forall i :: 0 <= i < n ==> !IsHeader(kinds[i])
    ensures ReadLines(kinds, n) == Manual(Unset, [], [])
  {
    if n > 0 {
      BulletsBeforeHeaderDropped(kinds, n - 1);
    }
  }

  /** The bullet texts among lines `from` up to `n`. */
  function BulletsIn(kinds: seq<LineKind>, from: nat, n: nat): seq<string>
    requires from <= n <= |kinds|
    decreases n - from
  {
    if n == from then []
    else BulletsIn(kinds, from, n - 1) + (if kinds[n - 1].BulletLine? then [kinds[n - 1].text] else [])
  }

  /** Within an issues section (up to the next header) every bullet becomes an issue, in order,
   *  and the section and the recommendations are untouched. */
  lemma {:induction false} IssueSectionCollects(kinds: seq<LineKind>, from: nat, n: nat)
    requires from <= n <= |kinds|
    requires ReadLines(kinds, from).section == InIssues
    requires forall i :: from <= i < n ==> !IsHeader(kinds[i])
    ensures ReadLines(kinds, n) == ReadLines(kinds, from).(
              issueTexts := ReadLines(kinds, from).issueTexts + BulletsIn(kinds, from, n))
  {
    if n > from {
      IssueSectionCollects(kinds, from, n - 1);
    }
  }

  /** A line that holds an issues header and also starts like a bullet only switches the section. */
  lemma HeaderBeforeBullet(m: Manual, line: string)
    requires IssuesHeader(line)
    ensures ReadLine(m, Classify(line)) == Manual(InIssues, m.issueTexts, m.recommendationTexts)
  {
  }

  /** A manual issue: general, a warning, on no particular line. */
  function ManualIssue(text: string): Json.Json {
    Json.JObj(map["type" := Json.JStr("general"), "severity" := Json.JStr("warning"), "line" := Json.JNull,
                  "message" := Json.JStr(text), "suggestion" := Json.JStr("Please review this issue")])
  }

  function AsStrings(ts: seq<string>): (r: seq<Json.Json>)
    ensures |r| == |ts| && forall k :: 0 <= k < |ts| ==> r[k] == Json.JStr(ts[k])
  {
    seq(|ts|, k requires 0 <= k < |ts| => Json.JStr(ts[k]))
  }

  /** The review built from the reader's final state. */
  function ManualReview(m: Manual): (r: Review)
    ensures r.score == DefaultScore && r.summary == "AI review completed" && r.compliments == []
    ensures |r.issues| == |m.issueTexts| && |r.recommendations| == |m.recommendationTexts|
    ensures forall k :: 0 <= k < |r.issues| ==>
              Json.Get(r.issues[k], "type") == Some(Json.JStr("general")) &&
              Json.Get(r.issues[k], "severity") == Some(Json.JStr("warning")) &&
              Json.Get(r.issues[k], "line") == Some(Json.JNull) &&
              Json.Get(r.issues[k], "message") == Some(Json.JStr(m.issueTexts[k])) &&
              Json.Get(r.issues[k], "suggestion") == Some(Json.JStr("Please review this issue"))
    ensures forall k :: 0 <= k < |r.recommendations| ==> r.recommendations[k] == Json.JStr(m.recommendationTexts[k])
  {
    Review(DefaultScore, "AI review completed",
           seq(|m.issueTexts|, k requires 0 <= k < |m.issueTexts| => ManualIssue(m.issueTexts[k])),
           AsStrings(m.recommendationTexts), [])
  }

  /** The loop of `parseManualResponse`, over the classified lines, with a mutable current
   *  section. */
  method ReadKinds(kinds: seq<LineKind>) returns (m: Manual)
    ensures m == ReadLines(kinds, |kinds|)
  {
    var section := Unset;
    var issues: seq<string> := [];
    var recommendations: seq<string> := [];
    var i := 0;
    while i < |kinds|
      invariant i <= |kinds|
      invariant Manual(section, issues, recommendations) == ReadLines(kinds, i)
    {
      var kind := kinds[i];
      if kind == IssuesLine {
        section := InIssues;
      } else if kind == RecommendationsLine {
        section := InRecommendations;
      } else if kind.BulletLine? {
        if section == InIssues {
          issues := issues + [kind.text];
        } else if section == InRecommendations {
          recommendations := recommendations + [kind.text];
        }
      }
      i := i + 1;
    }
    m := Manual(section, issues, recommendations);
  }

  /** `parseManualResponse`: the reply's lines read in order, then the review built from the
   *  gathered texts. */
  method ParseManualResponse(review: string) returns (r: Review)
    ensures r == ManualReview(ReadLines(Kinds(Lines(review)), |Lines(review)|))
  {
    var kinds := Kinds(Lines(review));
    var m := ReadKinds(kinds);
    r := ManualReview(m);
  }

  // ---------------------------------------------------------------- the pipeline

  /**
   * `parseReviewResponse`: a brace span is parsed and normalised, a reply without one is read
   * line by line, and a span that does not parse yields the fallback. `parse` stands for
   * `JSON.parse` (`None` when it throws).
   */
  function ParseReviewResponse(review: string, parse: string -> Option<Json.Json>): (r: Review)
    ensures BraceSpan(review).None? ==> r == ManualReview(ReadLines(Kinds(Lines(review)), |Lines(review)|))
    ensures BraceSpan(review).Some? && parse(BraceSpan(review).value).None? ==> r == Fallback(Json.JStr(review))
    ensures BraceSpan(review).Some? && parse(BraceSpan(review).value).Some? ==>
              r == Normalize(parse(BraceSpan(review).value).value)
  {
    match BraceSpan(review)
    case None => ManualReview(ReadLines(Kinds(Lines(review)), |Lines(review)|))
    case Some(span) =>
      match parse(span)
      case None => Fallback(Json.JStr(review))
      case Some(j) => Normalize(j)
  }

  /** The opening sentence of every prompt, naming the language and the quoted file name. */
  function Opening(language: string, fileName: string): string {
    Preamble(language) + Quoted(fileName) + ":\n\n"
  }

  function Preamble(language: string): string {
    "\nPlease review the following " + language + " code from file "
  }

  function Quoted(t: string): string {
    "\"" + t + "\""
  }

  /** The code, verbatim, in a Markdown fence tagged with the language. */
  function Fenced(code: string, language: string): string {
    "```" + language + "\n" + code + "\n```"
  }

  /** The instructions that follow the code in every prompt. */
  function Instructions(language: string): string {
    "\n\nPlease provide a comprehensive review including:\n\n"
    + "1. **Code Quality**: Structure, readability, maintainability\n"
    + "2. **Security**: Potential vulnerabilities and security issues\n"
    + "3. **Performance**: Optimization opportunities and bottlenecks\n"
    + "4. **Best Practices**: Adherence to " + language + " conventions and patterns\n"
    + "5. **Bug Detection**: Potential bugs or logical errors\n"
    + "6. **Suggestions**: Specific improvements with examples\n\n"
    + "Format your response as JSON with the following structure:\n"
    + "{\n  \"overall_score\": 1-10,\n  \"summary\": \"Brief overall assessment\",\n  \"issues\": [\n    {\n"
    + "      \"type\": \"security|performance|bug|style|best_practice\",\n"
    + "      \"severity\": \"error|warning|info\",\n"
    + "      \"line\": number or null,\n"
    + "      \"message\": \"Description of the issue\",\n"
    + "      \"suggestion\": \"How to fix it\"\n    }\n  ],\n"
    + "  \"recommendations\": [\n    \"General recommendation 1\",\n    \"General recommendation 2\"\n  ],\n"
    + "  \"compliments\": [\n    \"What was done well\"\n  ]\n}\n\n"
    + "Provide specific, actionable feedback.\n"
  }

  /** `buildReviewPrompt`. */
  function BuildPrompt(code: string, language: string, fileName: string): string {
    Opening(language, fileName) + Fenced(code, language) + Instructions(language)
  }

  /** The prompt carries the code verbatim in a fence tagged with the language. */
  lemma PromptCarriesCode(code: string, language: string, fileName: string)
    ensures Contains(BuildPrompt(code, language, fileName), Fenced(code, language))
  {
    ContainsInfix(Opening(language, fileName), Fenced(code, language), Instructions(language));
  }

  /** The prompt names the file in double quotes. */
  lemma PromptNamesFile(code: string, language: string, fileName: string)
    ensures Contains(BuildPrompt(code, language, fileName), Quoted(fileName))
  {
    var head := Preamble(language);
    var tail := ":\n\n" + Fenced(code, language) + Instructions(language);
    Regroup(head, Quoted(fileName), ":\n\n", Fenced(code, language), Instructions(language));
    ContainsInfix(head, Quoted(fileName), tail);
  }

  lemma Regroup(a: string, b: string, c: string, d: string, e: string)
    ensures (a + b + c) + d + e == a + b + (c + d + e)
  {
  }

  /** What the model call gave: a reply text, or an exception with an optional message. */
  datatype Result<T, E> = Ok(value: T) | Err(error: E)

  datatype ModelOutcome = Replied(text: string) | Threw(message: Option<string>)

  /** `reviewCode`: the reply is parsed, and a failed call yields the fallback carrying the
   *  error message. */
  function ReviewCode(outcome: ModelOutcome, parse: string -> Option<Json.Json>): (r: Review)
    ensures outcome.Threw? ==> r == Fallback(Json.JStr("Error: " + (
              if outcome.message.Some? && outcome.message.value != "" then outcome.message.value else "Unknown error")))
    ensures outcome.Replied? ==> r == ParseReviewResponse(outcome.text, parse)
  {
    match outcome
    case Threw(msg) => Fallback(Json.JStr("Error: " + (if msg.Some? && msg.value != "" then msg.value else "Unknown error")))
    case Replied(text) => ParseReviewResponse(text, parse)
  }

  const DefaultFileName := "untitled"

  /** The prompt `reviewCode` sends: a call without a file name names the file 'untitled'. */
  function ReviewPrompt(code: string, language: string, fileName: Option<string>): (p: string)
    ensures Contains(p, Fenced(code, language))
    ensures Contains(p, Quoted(fileName.GetOr(DefaultFileName)))
    ensures fileName.None? ==> Contains(p, Quoted("untitled"))
  {
    PromptCarriesCode(code, language, fileName.GetOr(DefaultFileName));
    PromptNamesFile(code, language, fileName.GetOr(DefaultFileName));
    BuildPrompt(code, language, fileName.GetOr(DefaultFileName))
  }

  /** The prompt `explainCode` sends: the question followed by the fenced code. */
  function ExplainPrompt(code: string, language: string): string {
    "Explain what this " + language + " code does:\n\n" + Fenced(code, language)
  }

  /** `explainCode`: the reply text itself, or a fixed error message whatever the call threw. */
  function ExplainCode(outcome: ModelOutcome): (r: Result<string, string>)
    ensures outcome.Replied? <==> r.Ok?
    ensures r.Ok? ==> r.value == outcome.text
    ensures r.Err? ==> r.error == "Failed to explain code"
  {
    match outcome
    case Replied(text) => Ok(text)
    case Threw(_) => Err("Failed to explain code")
  }

  lemma ExplainPromptCarriesCode(code: string, language: string)
    ensures Contains(ExplainPrompt(code, language), Fenced(code, language))
  {
    ContainsInfix("Explain what this " + language + " code does:\n\n", Fenced(code, language), "");
    assert ExplainPrompt(code, language) + "" == ExplainPrompt(code, language);
  }
}
