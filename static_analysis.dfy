/**
 * The AI service's static analysis: line metrics, a keyword count standing for cyclomatic
 * complexity, duplicate-line detection and the line-by-line heuristics (long lines, TODO
 * markers, `console.log`, three security patterns), plus the mapping of linter messages
 * into issues.
 */
module StaticAnalysis {
  import opened Wrappers
  import opened Text

  /** One reported issue; `column` is only set for linter issues. */
  datatype Issue = Issue(kind: string, severity: string, line: int, column: Option<int>,
                         message: string, suggestion: string)

  datatype Metrics = Metrics(linesOfCode: nat, complexity: nat, duplicateLines: nat)

  datatype Analysis = Analysis(issues: seq<Issue>, metrics: Metrics)

  // ---------------------------------------------------------------- the line heuristics

  /** The index of the first non-whitespace character at or after `k`. */
  function SkipSpace(s: string, k: nat): (j: nat)
    requires k <= |s|
    ensures k <= j <= |s| && AllSpace(s[k..j])
    ensures j < |s| ==> !IsSpace(s[j])
    decreases |s| - k
  {
    if k == |s| || !IsSpace(s[k]) then k
    else
      var j := SkipSpace(s, k + 1);
      assert s[k..j] == [s[k]] + s[k + 1..j];
      j
  }

  /** The regular expression `word\s*c`: `word`, any run of whitespace, then `c`. Since `c` is
   *  not whitespace, the run can be taken maximal. */
  predicate WordThen(s: string, word: string, c: char) {
    exists i :: 0 <= i <= |s| - |word| && OccursAt(s, word, i) &&
      var j := SkipSpace(s, i + |word|); j < |s| && s[j] == c
  }

  datatype SecurityPattern = Eval | DocumentWrite | InnerHtml

  /** The four line checks, in the order they run; security checks run pattern by pattern. */
  datatype Check = LongLine | Marker | ConsoleLog | Security(pattern: SecurityPattern)

  /** `/TODO|FIXME|XXX/i`; a case-insensitive match of an ASCII pattern is an ASCII-lower-cased
   *  match. */
  predicate HasMarker(line: string) {
    var l := Lower(line);
    Contains(l, "todo") || Contains(l, "fixme") || Contains(l, "xxx")
  }

  predicate Hit(c: Check, line: string) {
    match c
    case LongLine => |line| > 120
    case Marker => HasMarker(line)
    case ConsoleLog => Contains(line, "console.log")
    case Security(Eval) => WordThen(line, "eval", '(')
    case Security(DocumentWrite) => WordThen(line, "document.write", '(')
    case Security(InnerHtml) => WordThen(line, "innerHTML", '=')
  }

  function SecurityMessage(p: SecurityPattern): string {
    match p
    case Eval => "Use of eval() is dangerous"
    case DocumentWrite => "Use of document.write() is not recommended"
    case InnerHtml => "Direct innerHTML assignment can be dangerous"
  }

  /** The issue a check reports for `line` at 1-based line number `n`. */
  const LongLineSuggestion := "Consider breaking this line into multiple lines"
  const MarkerMessage := "TODO/FIXME comment found"
  const MarkerSuggestion := "Consider addressing this comment"
  const ConsoleMessage := "Console.log statement found"
  const ConsoleSuggestion := "Remove console.log statements before production"
  const SecuritySuggestion := "Consider using safer alternatives"

  function LongLineMessage(length: nat): string {
    "Line too long (" + NatToString(length) + " characters)"
  }

  function Report(c: Check, line: string, n: nat): (i: Issue)
    ensures i.line == n && i.column == None
  {
    match c
    case LongLine => Issue("style", "info", n, None, LongLineMessage(|line|), LongLineSuggestion)
    case Marker => Issue("maintenance", "info", n, None, MarkerMessage, MarkerSuggestion)
    case ConsoleLog => Issue("best_practice", "warning", n, None, ConsoleMessage, ConsoleSuggestion)
    case Security(p) => Issue("security", "warning", n, None, SecurityMessage(p), SecuritySuggestion)
  }

  /**
   * One pass of a check over the first `n` lines: one issue per matching line, in line order,
   * each carrying its 1-based line number.
   */
  function Pass(lines: seq<string>, c: Check, n: nat): (r: seq<Issue>)
    requires n <= |lines|
    ensures forall k :: 0 <= k < |r| ==>
              (1 <= r[k].line <= n && Hit(c, lines[r[k].line - 1]))
    ensures forall k, m :: 0 <= k < m < |r| ==> r[k].line < r[m].line
  {
    if n == 0 then []
    else
      var prev := Pass(lines, c, n - 1);
      if Hit(c, lines[n - 1]) then prev + [Report(c, lines[n - 1], n)] else prev
  }

  /** Each issue of a pass is the check's report for its line. */
  lemma {:induction false} PassReports(lines: seq<string>, c: Check, n: nat)
    requires n <= |lines|
    ensures forall k :: 0 <= k < |Pass(lines, c, n)| ==>
              Pass(lines, c, n)[k] == Report(c, lines[Pass(lines, c, n)[k].line - 1], Pass(lines, c, n)[k].line)
  {
    if n > 0 {
      PassReports(lines, c, n - 1);
    }
  }

  /** The issue kind each check reports. */
  function KindOf(c: Check): string {
    match c
    case LongLine => "style"
    case Marker => "maintenance"
    case ConsoleLog => "best_practice"
    case Security(_) => "security"
  }

  /** Without the `console.log` check among them, a sequence of passes reports no
   *  best-practice issue. */
  lemma {:induction false} AllPassesKinds(lines: seq<string>, checks: seq<Check>)
    requires ConsoleLog !in checks
    ensures forall k :: 0 <= k < |AllPasses(lines, checks)| ==> AllPasses(lines, checks)[k].kind != "best_practice"
  {
    if |checks| > 0 {
      AllPassesKinds(lines, checks[1..]);
      PassReports(lines, checks[0], |lines|);
      var p := Pass(lines, checks[0], |lines|);
      assert forall k :: 0 <= k < |p| ==> p[k].kind == KindOf(checks[0]);
    }
  }

  /** No matching line is missed: each one has its issue. */
  lemma {:induction false} PassComplete(lines: seq<string>, c: Check, n: nat, i: nat)
    requires i < n <= |lines| && Hit(c, lines[i])
    ensures Report(c, lines[i], i + 1) in Pass(lines, c, n)
  {
    if i < n - 1 {
      PassComplete(lines, c, n - 1, i);
    } else {
      var prev := Pass(lines, c, n - 1);
      assert Pass(lines, c, n) == prev + [Report(c, lines[i], i + 1)];
    }
  }

  predicate ScriptLanguage(language: string) {
    language == "javascript" || language == "typescript"
  }

  /** The checks `analyzeGeneral` runs for a language, in order. */
  function ChecksFor(language: string): seq<Check> {
    [LongLine, Marker] + (if ScriptLanguage(language) then [ConsoleLog] else [])
      + [Security(Eval), Security(DocumentWrite), Security(InnerHtml)]
  }

  function AllPasses(lines: seq<string>, checks: seq<Check>): seq<Issue> {
    if |checks| == 0 then [] else Pass(lines, checks[0], |lines|) + AllPasses(lines, checks[1..])
  }

  /** What `analyzeGeneral` reports. */
  function GeneralIssues(code: string, language: string): seq<Issue> {
    AllPasses(Lines(code), ChecksFor(language))
  }

  /** Every issue of a sequence of passes points at an existing line. */
  lemma {:induction false} AllPassesInRange(lines: seq<string>, checks: seq<Check>)
    ensures forall k :: 0 <= k < |AllPasses(lines, checks)| ==> 1 <= AllPasses(lines, checks)[k].line <= |lines|
  {
    if |checks| > 0 {
      AllPassesInRange(lines, checks[1..]);
    }
  }

  /** Every general issue lies within 1..linesOfCode, and `console.log` is only reported for
   *  JavaScript and TypeScript. */
  lemma GeneralIssueFacts(code: string, language: string)
    ensures forall k :: 0 <= k < |GeneralIssues(code, language)| ==>
              1 <= GeneralIssues(code, language)[k].line <= |Lines(code)|
    ensures !ScriptLanguage(language) ==>
              forall k :: 0 <= k < |GeneralIssues(code, language)| ==> GeneralIssues(code, language)[k].kind != "best_practice"
  {
    var lines := Lines(code);
    AllPassesInRange(lines, ChecksFor(language));
    if !ScriptLanguage(language) {
      AllPassesKinds(lines, ChecksFor(language));
    }
  }

  /** Runs one check over every line, as a `forEach` that pushes. */
  method RunCheck(lines: seq<string>, c: Check) returns (issues: seq<Issue>)
    ensures issues == Pass(lines, c, |lines|)
  {
    issues := [];
    var i := 0;
    while i < |lines|
      invariant i <= |lines|
      invariant issues == Pass(lines, c, i)
    {
      if Hit(c, lines[i]) {
        issues := issues + [Report(c, lines[i], i + 1)];
      }
      i := i + 1;
    }
  }

  /** `analyzeGeneral`: long lines, then markers, then `console.log` for scripts, then the
   *  security patterns one after another. */
  method AnalyzeGeneral(code: string, language: string) returns (issues: seq<Issue>)
    ensures issues == GeneralIssues(code, language)
  {
    var lines := Lines(code);
    var checks := ChecksFor(language);
    issues := [];
    var i := 0;
    while i < |checks|
      invariant i <= |checks|
      invariant issues + AllPasses(lines, checks[i..]) == AllPasses(lines, checks)
    {
      var found := RunCheck(lines, checks[i]);
      AllPassesStep(lines, checks, i);
      Regroup(issues, found, AllPasses(lines, checks[i + 1..]));
      issues := issues + found;
      i := i + 1;
    }
    assert checks[i..] == [];
  }

  /** The passes from check `i` on are check `i`'s pass followed by the rest. */
  lemma AllPassesStep(lines: seq<string>, checks: seq<Check>, i: nat)
    requires i < |checks|
    ensures AllPasses(lines, checks[i..]) == Pass(lines, checks[i], |lines|) + AllPasses(lines, checks[i + 1..])
  {
    assert checks[i..][1..] == checks[i + 1..];
  }

  lemma Regroup(a: seq<Issue>, b: seq<Issue>, c: seq<Issue>)
    ensures a + (b + c) == (a + b) + c
  {
  }

  // ---------------------------------------------------------------- complexity

  /** The pieces of `s` between single whitespace characters: no piece holds white space, and
   *  there is one piece more than there are whitespace characters. `split(/\s+/)` splits at
   *  whole runs of whitespace instead, so where the code has two or more whitespace characters
   *  in a row this list holds extra empty pieces; no keyword is empty, so the keyword count is
   *  the same. */
  function Words(s: string): (r: seq<string>)
    ensures |r| == 1 + SpaceCount(s)
    ensures forall i, j :: 0 <= i < |r| && 0 <= j < |r[i]| ==> !IsSpace(r[i][j])
  {
    if |s| == 0 then [""]
    else
      var rest := Words(s[1..]);
      if IsSpace(s[0]) then [""] + rest else [[s[0]] + rest[0]] + rest[1..]
  }

  /** The number of whitespace characters in `s`. */
  function SpaceCount(s: string): nat {
    if |s| == 0 then 0 else (if IsSpace(s[0]) then 1 else 0) + SpaceCount(s[1..])
  }

  const Keywords: seq<string> := ["if", "else", "for", "while", "do", "switch", "case", "catch", "finally"]

  /** Keyword words among the first `n`. */
  function KeywordCount(ws: seq<string>, n: nat): (k: nat)
    requires n <= |ws|
    ensures k <= n
  {
    if n == 0 then 0 else KeywordCount(ws, n - 1) + (if ws[n - 1] in Keywords then 1 else 0)
  }

  /** The keyword count is the total number of occurrences of the nine keywords. */
  lemma {:induction false} KeywordCountByKeyword(ws: seq<string>, n: nat)
    requires n <= |ws|
    ensures KeywordCount(ws, n) == var m := multiset(ws[..n]);
      m["if"] + m["else"] + m["for"] + m["while"] + m["do"] + m["switch"] + m["case"] + m["catch"] + m["finally"]
  {
    if n > 0 {
      KeywordCountByKeyword(ws, n - 1);
      assert ws[..n] == ws[..n - 1] + [ws[n - 1]];
    }
  }

  /** `calculateComplexity`: one plus one per keyword word. */
  method CalculateComplexity(code: string) returns (complexity: nat)
    ensures complexity == 1 + KeywordCount(Words(code), |Words(code)|)
    ensures 1 <= complexity <= 1 + |Words(code)|
  {
    complexity := 1;
    var words := Words(code);
    var i := 0;
    while i < |words|
      invariant i <= |words|
      invariant complexity == 1 + KeywordCount(words, i)
    {
      if words[i] in Keywords {
        complexity := complexity + 1;
      }
      i := i + 1;
    }
  }

  // ---------------------------------------------------------------- duplicate lines

  /** The trimmed lines of a text. */
  function Trims(lines: seq<string>): (r: seq<string>)
    ensures |r| == |lines|
    ensures forall i :: 0 <= i < |lines| ==> r[i] == Trim(lines[i])
  {
    seq(|lines|, i requires 0 <= i < |lines| => Trim(lines[i]))
  }

  /** The distinct trimmed lines longer than ten characters that occur at least twice. */
  function DuplicateSet(ts: seq<string>): set<string> {
    set t | t in ts && |t| > 10 && multiset(ts)[t] >= 2
  }

  /** Adding one trimmed line adds it to the duplicate set exactly when it is long and this is
   *  its second occurrence. */
  lemma DuplicateSetStep(ts: seq<string>, t: string)
    ensures DuplicateSet(ts + [t]) ==
            DuplicateSet(ts) + (if |t| > 10 && multiset(ts)[t] == 1 then {t} else {})
    ensures |t| > 10 && multiset(ts)[t] == 1 ==> t !in DuplicateSet(ts)
  {
    var m := multiset(ts + [t]);
    assert m == multiset(ts) + multiset{t};
    forall x ensures x in DuplicateSet(ts + [t]) <==>
                     x in DuplicateSet(ts) + (if |t| > 10 && multiset(ts)[t] == 1 then {t} else {}) {
      if x in ts + [t] && x != t {
        assert x in ts;
      }
      if x == t && multiset(ts)[t] >= 1 {
        assert t in ts;
      }
    }
  }

  /** The count table holds, for each long trimmed line seen so far, how often it was seen. */
  ghost predicate Tally(table: map<string, nat>, ts: seq<string>) {
    && (forall x :: x in table <==> x in ts && |x| > 10)
    && (forall x :: x in table ==> table[x] == multiset(ts)[x])
  }

  /** Counting one more trimmed line keeps the table exact. */
  lemma TallyStep(table: map<string, nat>, ts: seq<string>, t: string)
    requires Tally(table, ts)
    ensures |t| > 10 ==> Tally(table[t := (if t in table then table[t] else 0) + 1], ts + [t])
    ensures |t| > 10 ==> (if t in table then table[t] else 0) == multiset(ts)[t]
    ensures |t| <= 10 ==> Tally(table, ts + [t])
  {
    assert multiset(ts + [t]) == multiset(ts) + multiset{t};
    if t !in ts {
      assert multiset(ts)[t] == 0;
    }
  }

  /** One more trimmed line, as the loop counts it: a long line bumps its count and becomes a
   *  duplicate on its second occurrence; a short one changes nothing. */
  lemma CountLine(table: map<string, nat>, ts: seq<string>, t: string)
    requires Tally(table, ts)
    ensures |t| > 10 ==>
              var count := (if t in table then table[t] else 0) + 1;
              && Tally(table[t := count], ts + [t])
              && |DuplicateSet(ts + [t])| == |DuplicateSet(ts)| + (if count == 2 then 1 else 0)
    ensures |t| <= 10 ==> Tally(table, ts + [t]) && DuplicateSet(ts + [t]) == DuplicateSet(ts)
  {
    DuplicateSetStep(ts, t);
    TallyStep(table, ts, t);
    if |t| > 10 {
      var count := (if t in table then table[t] else 0) + 1;
      if count == 2 {
        var before := DuplicateSet(ts);
        assert t !in before;
        assert |before + {t}| == |before| + 1;
      }
    }
  }

  /**
   * The counting loop of `findDuplicateLines` over the trimmed lines, with a proper
   * dictionary: each distinct trimmed line longer than ten characters is counted once, when it
   * is seen for the second time.
   */
  method CountRepeated(ts: seq<string>) returns (duplicates: nat)
    ensures duplicates == |DuplicateSet(ts)|
  {
    var lineCount: map<string, nat> := map[];
    duplicates := 0;
    var i := 0;
    while i < |ts|
      invariant i <= |ts|
      invariant Tally(lineCount, ts[..i])
      invariant duplicates == |DuplicateSet(ts[..i])|
    {
      var trimmed := ts[i];
      assert ts[..i + 1] == ts[..i] + [trimmed];
      CountLine(lineCount, ts[..i], trimmed);
      if trimmed != "" && |trimmed| > 10 {
        var count := (if trimmed in lineCount then lineCount[trimmed] else 0) + 1;
        lineCount := lineCount[trimmed := count];
        if count == 2 {
          duplicates := duplicates + 1;
        }
      }
      i := i + 1;
    }
    assert ts[..i] == ts;
  }

  /** `findDuplicateLines`: the lines are split and trimmed, then counted. */
  method FindDuplicateLines(code: string) returns (duplicates: nat)
    ensures duplicates == |DuplicateSet(Trims(Lines(code)))|
  {
    duplicates := CountRepeated(Trims(Lines(code)));
  }

  /**
   * The count table as written is a plain object, so a trimmed line that names a property
   * every object inherits starts out holding a function rather than `undefined`; adding one to
   * it yields a text, which never equals 2. `Slot` tracks that.
   */
  datatype Slot = Count(n: nat) | NotANumber

  const InheritedNames: set<string> := {
    "constructor", "hasOwnProperty", "isPrototypeOf", "propertyIsEnumerable", "toLocaleString",
    "__defineGetter__", "__defineSetter__", "__lookupGetter__", "__lookupSetter__"}

  /** `(lineCount[t] || 0) + 1` on the object as written. */
  function Bump(table: map<string, Slot>, t: string): Slot {
    if t in table then (match table[t] case Count(n) => Count(n + 1) case NotANumber => NotANumber)
    else if t in InheritedNames then NotANumber
    else Count(1)
  }

  /** `findDuplicateLines` as written, over the first `n` trimmed lines. */
  function DuplicatesAsWritten(ts: seq<string>, n: nat): (r: (map<string, Slot>, nat))
    requires n <= |ts|
    ensures r.1 <= n
  {
    if n == 0 then (map[], 0)
    else
      var (table, d) := DuplicatesAsWritten(ts, n - 1);
      var t := ts[n - 1];
      if t != "" && |t| > 10 then
        var v := Bump(table, t);
        (table[t := v], if v == Count(2) then d + 1 else d)
      else (table, d)
  }

  /** A line repeated twice that reads `constructor` is a duplicate, yet the code as written
   *  reports none. */
  lemma InheritedNameUndercounted()
    ensures DuplicatesAsWritten(["constructor", "constructor"], 2).1 == 0
    ensures |DuplicateSet(["constructor", "constructor"])| == 1
  {
    var ts := ["constructor", "constructor"];
    assert DuplicatesAsWritten(ts, 1) == (map["constructor" := NotANumber], 0);
    assert multiset(ts)["constructor"] == 2;
    assert DuplicateSet(ts) == {"constructor"};
  }

  // ---------------------------------------------------------------- linter messages

  const DefaultSuggestion := "Follow ESLint recommendations"

  /** The six rules `getESLintSuggestion` has advice for. */
  predicate KnownRule(id: string) {
    id == "no-unused-vars" || id == "no-console" || id == "eqeqeq" || id == "curly" || id == "no-undef" || id == "semi"
  }

  /** `getESLintSuggestion`: advice for six known rules, the default otherwise. */
  function Suggestion(ruleId: Option<string>): (r: string)
    ensures r == DefaultSuggestion <==> ruleId.None? || !KnownRule(ruleId.value)
    ensures ruleId == Some("no-unused-vars") ==> r == "Remove unused variables or use them appropriately"
    ensures ruleId == Some("no-console") ==> r == "Remove console statements or use a proper logging library"
    ensures ruleId == Some("eqeqeq") ==> r == "Use === instead of == for strict equality"
    ensures ruleId == Some("curly") ==> r == "Always use curly braces for control statements"
    ensures ruleId == Some("no-undef") ==> r == "Define variables before using them"
    ensures ruleId == Some("semi") ==> r == "Add semicolons at the end of statements"
  {
    if ruleId == Some("no-unused-vars") then "Remove unused variables or use them appropriately"
    else if ruleId == Some("no-console") then "Remove console statements or use a proper logging library"
    else if ruleId == Some("eqeqeq") then "Use === instead of == for strict equality"
    else if ruleId == Some("curly") then "Always use curly braces for control statements"
    else if ruleId == Some("no-undef") then "Define variables before using them"
    else if ruleId == Some("semi") then "Add semicolons at the end of statements"
    else DefaultSuggestion
  }

  /** A message of the linter run; the run itself is not part of this model. */
  datatype LintMessage = LintMessage(ruleId: Option<string>, severity: int, line: int, column: int, message: string)

  /** One linter message as an issue: severity 2 is an error, anything else a warning. */
  function FromLint(m: LintMessage): (i: Issue)
    ensures i.severity == (if m.severity == 2 then "error" else "warning")
    ensures i.kind == (if m.ruleId.Some? && m.ruleId.value != "" then m.ruleId.value else "eslint")
    ensures i.line == m.line && i.column == Some(m.column) && i.suggestion == Suggestion(m.ruleId)
  {
    Issue(if m.ruleId.Some? && m.ruleId.value != "" then m.ruleId.value else "eslint",
          if m.severity == 2 then "error" else "warning", m.line, Some(m.column), m.message, Suggestion(m.ruleId))
  }

  // ---------------------------------------------------------------- analyze

  /**
   * `analyze`: linter issues first (scripts only), then the general issues, with the metrics.
   * `lint` is what the linter reported; `fails` stands for an exception, which yields no
   * issues and zero complexity and duplicates.
   */
  method Analyze(code: string, language: string, lint: seq<LintMessage>, fails: bool) returns (a: Analysis)
    ensures a.metrics.linesOfCode == |Lines(code)| == Occurrences(code, '\n') + 1
    ensures fails ==> a == Analysis([], Metrics(|Lines(code)|, 0, 0))
    ensures !fails ==>
      && a.issues == (if ScriptLanguage(language) then seq(|lint|, k requires 0 <= k < |lint| => FromLint(lint[k])) else [])
                     + GeneralIssues(code, language)
      && a.metrics.complexity == 1 + KeywordCount(Words(code), |Words(code)|) >= 1
      && a.metrics.duplicateLines == |DuplicateSet(Trims(Lines(code)))|
  {
    SplitCount(code, '\n');
    if fails {
      return Analysis([], Metrics(|Lines(code)|, 0, 0));
    }
    var complexity := CalculateComplexity(code);
    var duplicates := FindDuplicateLines(code);
    var linted: seq<Issue> := [];
    if ScriptLanguage(language) {
      linted := seq(|lint|, k requires 0 <= k < |lint| => FromLint(lint[k]));
    }
    var general := AnalyzeGeneral(code, language);
    a := Analysis(linted + general, Metrics(|Lines(code)|, complexity, duplicates));
  }
}
