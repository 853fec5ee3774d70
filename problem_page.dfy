/**
 * The pure helpers of the problem page of the front end: the starter code the editor opens
 * with, the check that refuses code still looking like a template, and the decision taken
 * before a run or submit request is sent.
 */
module ProblemPage {
  import opened Base
  import opened Text

  // ---------------------------------------------------------------- starter code

  // Each template is written around the pattern that later marks it as unchanged.
  const JavaScriptTemplate := "/**\n* @param {any} input\n* @return {any}\n*/\n" + "function solve" + "(input) {\n    // Your code here\n    return input;\n}"
  const PythonTemplate := "class Solution:\n    " + "def solve" + "(self, input):\n        # Your code here\n        return input"
  const JavaTemplate := "class Solution {\n    " + "public Object solve" + "(Object input) {\n        // Your code here\n        return input;\n    }\n}"
  const CppTemplate := "#include <bits/stdc++.h>\n" + "using namespace std;\n\nclass Solution {\npublic:\n    " + "// Your code here" + "\n};"
  const CTemplate := "#include <stdio.h>\n\n" + "// Your code here"

  /** The built-in starter templates, keyed by the exact language name. */
  const StarterTemplates: map<string, string> := map[
    "javascript" := JavaScriptTemplate,
    "python" := PythonTemplate,
    "java" := JavaTemplate,
    "cpp" := CppTemplate,
    "c" := CTemplate]

  /** One `startCode` entry of a problem; `None` stands for a missing field. */
  datatype StartCode = StartCode(language: Option<string>, initialCode: Option<string>)

  /** `sc.language?.toLowerCase() === language.toLowerCase()`. */
  predicate MatchesLanguage(sc: StartCode, language: string) {
    sc.language.Some? && ToLower(sc.language.value) == ToLower(language)
  }

  /** `startCode.find(...)`: the first entry whose language matches. */
  function FindStartCode(entries: seq<StartCode>, language: string): Option<StartCode> {
    if entries == [] then None
    else if MatchesLanguage(entries[0], language) then Some(entries[0])
    else FindStartCode(entries[1..], language)
  }

  /** A JavaScript-truthy optional string: present and non-empty. */
  predicate Truthy(s: Option<string>) {
    s.Some? && s.value != ""
  }

  /**
   * `getStarterCode`: the initial code of the first matching entry when it is non-empty, else
   * the template for the exact language name, else the JavaScript template.
   */
  function GetStarterCode(startCode: Option<seq<StartCode>>, language: string): (code: string)
    ensures code != ""
  {
    var found := if startCode.Some? then FindStartCode(startCode.value, language) else None;
    var fromProblem := if found.Some? then found.value.initialCode else None;
    if Truthy(fromProblem) then fromProblem.value
    else if language in StarterTemplates then StarterTemplates[language]
    else JavaScriptTemplate
  }

  /** The entry found is the first one whose language matches case-insensitively; there is none when no entry matches. */
  lemma {:induction false} FindStartCodeIsFirst(entries: seq<StartCode>, language: string)
    ensures FindStartCode(entries, language).None? <==>
      forall i :: 0 <= i < |entries| ==> !MatchesLanguage(entries[i], language)
    ensures FindStartCode(entries, language).Some? ==>
      exists i :: 0 <= i < |entries| && FindStartCode(entries, language) == Some(entries[i])
        && MatchesLanguage(entries[i], language)
        && forall j :: 0 <= j < i ==> !MatchesLanguage(entries[j], language)
  {
    if entries != [] && !MatchesLanguage(entries[0], language) {
      var rest := entries[1..];
      FindStartCodeIsFirst(rest, language);
      assert forall i :: 1 <= i < |entries| ==> entries[i] == rest[i - 1];
      if FindStartCode(rest, language).Some? {
        var i :| 0 <= i < |rest| && FindStartCode(rest, language) == Some(rest[i])
          && MatchesLanguage(rest[i], language) && forall j :: 0 <= j < i ==> !MatchesLanguage(rest[j], language);
        assert entries[i + 1] == rest[i];
        assert forall j :: 0 <= j < i + 1 ==> !MatchesLanguage(entries[j], language) by {
          forall j | 0 <= j < i + 1 ensures !MatchesLanguage(entries[j], language) {
            if j > 0 { assert entries[j] == rest[j - 1]; }
          }
        }
      }
    }
  }

  /**
   * The starter code is the problem's own when the first matching entry has non-empty code;
   * otherwise a built-in template: the language's own, or JavaScript's for a name without one.
   * Only the first match is consulted: a later matching entry is never used.
   */
  lemma GetStarterCodeCases(startCode: Option<seq<StartCode>>, language: string)
    ensures var found := if startCode.Some? then FindStartCode(startCode.value, language) else None;
      (found.Some? && Truthy(found.value.initialCode) ==> GetStarterCode(startCode, language) == found.value.initialCode.value)
      && (!(found.Some? && Truthy(found.value.initialCode)) ==>
            GetStarterCode(startCode, language) ==
              if language in StarterTemplates then StarterTemplates[language] else JavaScriptTemplate)
  {
  }

  /** A problem's own non-empty code for a language wins, whatever the case of either name. */
  lemma OwnStarterCodeWins(language: string, entryLanguage: string, code: string, rest: seq<StartCode>)
    requires ToLower(entryLanguage) == ToLower(language) && code != ""
    ensures GetStarterCode(Some([StartCode(Some(entryLanguage), Some(code))] + rest), language) == code
  {
    var entries := [StartCode(Some(entryLanguage), Some(code))] + rest;
    assert entries[0] == StartCode(Some(entryLanguage), Some(code));
  }

  // ---------------------------------------------------------------- empty-code check

  /** The substrings that mark code as unchanged from a template, keyed by the exact language name. */
  const EmptyPatterns: map<string, seq<string>> := map[
    "javascript" := ["// Your code here", "function solve", "// some comment"],
    "python" := ["# Your code here", "def solve", "# some comment"],
    "java" := ["// Your code here", "public Object solve", "// some comment"],
    "cpp" := ["// Your code here", "// Your code here", "// some comment"],
    "c" := ["// Your code here", "// Your code here", "// some comment"]]

  function PatternsFor(language: string): seq<string> {
    if language in EmptyPatterns then EmptyPatterns[language] else []
  }

  /** `patterns.some(pattern => code.includes(pattern))`. */
  predicate SomeContained(code: string, patterns: seq<string>) {
    exists i :: 0 <= i < |patterns| && Contains(code, patterns[i])
  }

  /** `isEmptyCode`: the code contains one of the language's patterns, or is shorter than 20 once trimmed. */
  predicate IsEmptyCode(code: string, language: string) {
    SomeContained(code, PatternsFor(language)) || |Trim(code)| < 20
  }

  /** Short code is always empty; for a language without patterns, it is the only way to be empty. */
  lemma EmptyCodeByLength(code: string, language: string)
    ensures |Trim(code)| < 20 ==> IsEmptyCode(code, language)
    ensures language !in EmptyPatterns ==> (IsEmptyCode(code, language) <==> |Trim(code)| < 20)
  {
  }

  /** Any JavaScript code mentioning `function solve`, and any Python code mentioning `def solve`, counts as empty. */
  lemma SolveSignatureCountsAsEmpty(code: string)
    ensures Contains(code, "function solve") ==> IsEmptyCode(code, "javascript")
    ensures Contains(code, "def solve") ==> IsEmptyCode(code, "python")
    ensures Contains(code, "// Your code here") ==>
      IsEmptyCode(code, "javascript") && IsEmptyCode(code, "java") && IsEmptyCode(code, "cpp") && IsEmptyCode(code, "c")
  {
    assert EmptyPatterns["javascript"][1] == "function solve";
    assert EmptyPatterns["python"][1] == "def solve";
    assert EmptyPatterns["javascript"][0] == "// Your code here";
    assert EmptyPatterns["java"][0] == "// Your code here";
    assert EmptyPatterns["cpp"][0] == "// Your code here";
    assert EmptyPatterns["c"][0] == "// Your code here";
  }

  /** Every built-in template counts as empty code in its own language. */
  lemma TemplatesCountAsEmpty(language: string)
    requires language in StarterTemplates
    ensures IsEmptyCode(StarterTemplates[language], language)
  {
    var patterns := PatternsFor(language);
    if language == "javascript" {
      ContainsBetween("/**\n* @param {any} input\n* @return {any}\n*/\n", "function solve", "(input) {\n    // Your code here\n    return input;\n}");
      assert Contains(StarterTemplates[language], patterns[1]);
    } else if language == "python" {
      ContainsBetween("class Solution:\n    ", "def solve", "(self, input):\n        # Your code here\n        return input");
      assert Contains(StarterTemplates[language], patterns[1]);
    } else if language == "java" {
      ContainsBetween("class Solution {\n    ", "public Object solve", "(Object input) {\n        // Your code here\n        return input;\n    }\n}");
      assert Contains(StarterTemplates[language], patterns[1]);
    } else if language == "cpp" {
      ContainsBetween("#include <bits/stdc++.h>\n" + "using namespace std;\n\nclass Solution {\npublic:\n    ", "// Your code here", "\n};");
      assert Contains(StarterTemplates[language], patterns[0]);
    } else {
      ContainsBetween("#include <stdio.h>\n\n", "// Your code here", "");
      assert CTemplate + "" == CTemplate;
      assert Contains(StarterTemplates[language], patterns[0]);
    }
  }

  // ---------------------------------------------------------------- run and submit guard

  datatype Action = RunCode | SubmitCode

  /** The JSON body posted: a run carries the custom test case (`null` when falsy), a submit does not. */
  datatype RequestBody =
    | RunBody(code: string, language: string, customTestCase: Option<string>)
    | SubmitBody(code: string, language: string)

  /** What the handler does before awaiting the server: nothing, show an error result, or post. */
  datatype GuardResult =
    | NoEditor
    | Blocked(status: string, message: string)
    | Post(path: string, body: RequestBody)

  function BlockedMessage(action: Action): string {
    match action
    case RunCode => "Please write actual code before running."
    case SubmitCode => "Please write actual code before submitting."
  }

  /**
   * The first steps of `handleRunCode` and `handleSubmitCode`: without an editor nothing happens;
   * the trimmed editor text is refused when blank or empty by `isEmptyCode`; otherwise it is posted.
   */
  function Guard(editor: Option<string>, language: string, problemId: string, customTestCase: Option<string>,
                 action: Action): GuardResult
  {
    if editor.None? then NoEditor
    else
      var currentCode := Trim(editor.value);
      if currentCode == "" || IsEmptyCode(currentCode, language) then Blocked("error", BlockedMessage(action))
      else match action
        case RunCode =>
          Post("/submission/run/" + problemId,
               RunBody(currentCode, language, if Truthy(customTestCase) then customTestCase else None))
        case SubmitCode => Post("/submission/submit/" + problemId, SubmitBody(currentCode, language))
  }

  /** A request is refused exactly when the trimmed text is empty code; the blank test is subsumed by the length test. */
  lemma GuardBlocksIff(text: string, language: string, problemId: string, customTestCase: Option<string>, action: Action)
    ensures var g := Guard(Some(text), language, problemId, customTestCase, action);
      && (g.Blocked? <==> IsEmptyCode(Trim(text), language))
      && (g.Blocked? || g.Post?)
      && (g.Blocked? ==> g == Blocked("error", BlockedMessage(action)))
  {
    var t := Trim(text);
    TrimOfTrimmed(t);
  }

  /**
   * What is posted is the trimmed text, at least 20 characters long, without white space at
   * either end and without any of the language's patterns.
   */
  lemma GuardPostsTrimmed(text: string, language: string, problemId: string, customTestCase: Option<string>, action: Action)
    ensures var g := Guard(Some(text), language, problemId, customTestCase, action);
      g.Post? ==>
        && g.body.code == Trim(text) && g.body.language == language
        && |g.body.code| >= 20
        && !IsSpace(g.body.code[0]) && !IsSpace(g.body.code[|g.body.code| - 1])
        && !SomeContained(g.body.code, PatternsFor(language))
  {
    var t := Trim(text);
    TrimOfTrimmed(t);
    var g := Guard(Some(text), language, problemId, customTestCase, action);
    if g.Post? {
      assert g.body.code == t;
      assert !IsEmptyCode(t, language);
    }
  }

  /** A run posts the custom test case only when it is non-empty, and a submit never posts one. */
  lemma GuardRequests(text: string, language: string, problemId: string, customTestCase: Option<string>)
    ensures var g := Guard(Some(text), language, problemId, customTestCase, RunCode);
      g.Post? ==> g.path == "/submission/run/" + problemId && g.body.RunBody?
                  && (g.body.customTestCase.Some? <==> Truthy(customTestCase))
    ensures var g := Guard(Some(text), language, problemId, customTestCase, SubmitCode);
      g.Post? ==> g.path == "/submission/submit/" + problemId && g.body.SubmitBody?
  {
  }

  /** A trimmed text that is empty code is refused. */
  lemma TrimmedEmptyCodeIsBlocked(code: string, language: string, problemId: string, customTestCase: Option<string>,
                                  action: Action)
    requires code != [] && !IsSpace(code[0]) && !IsSpace(code[|code| - 1])
    requires IsEmptyCode(code, language)
    ensures Guard(Some(code), language, problemId, customTestCase, action).Blocked?
  {
    TrimOfTrimmed(code);
    GuardBlocksIff(code, language, problemId, customTestCase, action);
  }

  /**
   * Opening the editor on a built-in template and pressing run or submit is refused, in each of
   * the five languages.
   */
  lemma TemplateIsBlocked(language: string, problemId: string, customTestCase: Option<string>, action: Action)
    requires language in StarterTemplates
    ensures Guard(Some(GetStarterCode(None, language)), language, problemId, customTestCase, action).Blocked?
  {
    TemplatesCountAsEmpty(language);
    TemplateIsTrimmed(language);
    TrimmedEmptyCodeIsBlocked(StarterTemplates[language], language, problemId, customTestCase, action);
  }

  /** No template starts or ends with white space. */
  lemma TemplateIsTrimmed(language: string)
    requires language in StarterTemplates
    ensures var code := StarterTemplates[language];
      code != [] && !IsSpace(code[0]) && !IsSpace(code[|code| - 1])
  {
    if language == "javascript" {
      TemplateEnds("/**\n* @param {any} input\n* @return {any}\n*/\n", "function solve", "(input) {\n    // Your code here\n    return input;\n}");
    } else if language == "python" {
      TemplateEnds("class Solution:\n    ", "def solve", "(self, input):\n        # Your code here\n        return input");
    } else if language == "java" {
      TemplateEnds("class Solution {\n    ", "public Object solve", "(Object input) {\n        // Your code here\n        return input;\n    }\n}");
    } else if language == "cpp" {
      var directive := "#include <bits/stdc++.h>\n";
      var head := directive + "using namespace std;\n\nclass Solution {\npublic:\n    ";
      assert head[0] == directive[0] == '#';
      TemplateEnds(head, "// Your code here", "\n};");
    } else {
      TemplateEnds("#include <stdio.h>\n\n", "// Your cod", "e here");
      assert CTemplate == "#include <stdio.h>\n\n" + "// Your cod" + "e here";
    }
  }

  /** The first and last characters of a template built around a pattern. */
  lemma TemplateEnds(head: string, pattern: string, tail: string)
    requires head != [] && tail != []
    requires !IsSpace(head[0]) && !IsSpace(tail[|tail| - 1])
    ensures var t := head + pattern + tail; t != [] && !IsSpace(t[0]) && !IsSpace(t[|t| - 1])
  {
    var t := head + pattern + tail;
    assert t[0] == head[0];
    assert t[|t| - 1] == tail[|tail| - 1];
  }

  /** A language without a template opens the JavaScript template, which its empty-code check lets through. */
  lemma UnknownLanguageTemplatePasses(language: string, problemId: string, customTestCase: Option<string>, action: Action)
    requires language !in StarterTemplates
    ensures Guard(Some(GetStarterCode(None, language)), language, problemId, customTestCase, action).Post?
  {
    var head := "/**\n* @param {any} input\n* @return {any}\n*/\n";
    var tail := "(input) {\n    // Your code here\n    return input;\n}";
    assert JavaScriptTemplate[0] == head[0] == '/';
    assert JavaScriptTemplate[|JavaScriptTemplate| - 1] == tail[|tail| - 1] == '}';
    TrimOfTrimmed(JavaScriptTemplate);
    EmptyCodeByLength(JavaScriptTemplate, language);
    GuardBlocksIff(JavaScriptTemplate, language, problemId, customTestCase, action);
  }
}
