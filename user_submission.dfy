/**
 * The submission controller of the Day05 backend: `submitCode` judges code against a problem's
 * hidden test cases and records the verdict; `runCode` judges it against the visible cases
 * without recording anything.
 */
module UserSubmission {
  import opened Base
  import opened Text
  import opened Responses
  import opened ProblemUtility
  import opened SubmissionModel
  import opened UserProblem

  // ---------------------------------------------------------------- language resolution

  /** The alias lists tried, in order, for a lower-cased name the table does not know. */
  const Aliases: map<string, seq<string>> := map[
    "cpp" := ["cpp17", "cpp14", "c++"],
    "c++" := ["cpp17", "cpp14", "cpp"],
    "js" := ["javascript", "nodejs"],
    "javascript" := ["nodejs", "js"],
    "py" := ["python3", "python"],
    "python" := ["python3", "py"]]

  /** The id of the first name in the list that the table resolves. */
  function FirstResolving(names: seq<string>): Option<int> {
    if names == [] then None
    else match LanguageId(names[0])
      case Some(id) => Some(id)
      case None => FirstResolving(names[1..])
  }

  /**
   * The language id `submitCode` and `runCode` use: the table entry for the name, else for the
   * lower-cased name, else the first alias of the lower-cased name that the table resolves.
   */
  function Resolve(language: string): Option<int> {
    var direct := OrElse(LanguageId(language), LanguageId(ToLower(language)));
    if direct.Some? then direct
    else
      var key := ToLower(language);
      if key in Aliases then FirstResolving(Aliases[key]) else None
  }

  /** The two table lookups, then the alias loop that stops at the first hit. */
  method ResolveLanguage(language: string) returns (languageId: Option<int>)
    ensures languageId == Resolve(language)
  {
    languageId := OrElse(LanguageId(language), LanguageId(ToLower(language)));
    if languageId.None? {
      var key := ToLower(language);
      if key in Aliases {
        var names := Aliases[key];
        var i := 0;
        while i < |names|
          invariant 0 <= i <= |names|
          invariant languageId.None?
          invariant FirstResolving(names) == FirstResolving(names[i..])
        {
          var id := LanguageId(names[i]);
          if id.Some? {
            languageId := id;
            break;
          }
          assert names[i..][1..] == names[i + 1..];
          i := i + 1;
        }
      }
    }
  }

  /** The resolver accepts exactly the five table names and the aliases `cpp`, `js`, `py`, in any case. */
  lemma ResolveAccepts(language: string)
    ensures Resolve(language).Some? <==>
      var key := ToLower(language);
      key == "c" || key == "c++" || key == "java" || key == "javascript" || key == "python"
      || key == "cpp" || key == "js" || key == "py"
    ensures Resolve(language).Some? ==> Resolve(language).value in LanguageIds.Values
  {
    var key := ToLower(language);
    LanguageIdCaseInsensitive(language);
    LowerOfLower(language);
    LanguageIdRejectsAliases();
    LowerOfLower("cpp14");
    LowerOfLower("c++");
    LowerOfLower("python");
    LowerOfLower("javascript");
    assert LanguageId(language) == LanguageId(key);
  }

  /** Every spelling of C++ gives 54, including the alias `cpp`. */
  lemma ResolveCppSpellings()
    ensures Resolve("C++") == Some(54) && Resolve("c++") == Some(54)
    ensures Resolve("cpp") == Some(54) && Resolve("CPP") == Some(54)
  {
    LanguageIdRejectsAliases();
    LowerOfLower("cpp14");
    LowerOfLower("c++");
    LowerOfLower("cpp");
    assert ToLower("C++") == "c++";
    assert ToLower("CPP") == "cpp";
  }

  /** The short aliases `py` and `js` resolve through the long names: 71 and 63. */
  lemma ResolveShortAliases()
    ensures Resolve("py") == Some(71) && Resolve("PY") == Some(71) && Resolve("js") == Some(63)
  {
    LanguageIdRejectsAliases();
    LowerOfLower("python");
    LowerOfLower("javascript");
    LowerOfLower("py");
    LowerOfLower("js");
    assert ToLower("PY") == "py";
  }

  /** The names that appear only inside alias lists do not resolve on their own. */
  lemma ResolveRejectsInnerAliases()
    ensures Resolve("python3").None? && Resolve("nodejs").None? && Resolve("cpp17").None?
  {
    LanguageIdRejectsAliases();
    LowerOfLower("python3");
    LowerOfLower("nodejs");
    LowerOfLower("cpp17");
  }

  /** Every language the Submission schema admits resolves, `cpp` through its alias `c++`. */
  lemma SchemaLanguagesResolve(language: string)
    requires language in LanguageEnum
    ensures Resolve(language).Some?
  {
    ResolveAccepts(language);
    LowerOfLower(language);
  }

  // ---------------------------------------------------------------- tokens

  predicate IsTruthy(token: Option<string>) {
    token.Some? && token.value != ""
  }

  /** `submitResult.map((value) => value.token).filter(Boolean)`. */
  function TruthyTokens(entries: seq<BatchEntry>): seq<string> {
    if entries == [] then []
    else (if IsTruthy(entries[0].token) then [entries[0].token.value] else []) + TruthyTokens(entries[1..])
  }

  /**
   * The filter keeps every token that is present and non-empty, and nothing else;
   * it drops nothing, and keeps the order, when every entry has one.
   */
  lemma {:induction false} TruthyTokensMeaning(entries: seq<BatchEntry>)
    ensures |TruthyTokens(entries)| <= |entries|
    ensures forall t :: t in TruthyTokens(entries) ==> t != "" && BatchEntry(Some(t)) in entries
    ensures forall i :: 0 <= i < |entries| && IsTruthy(entries[i].token) ==> entries[i].token.value in TruthyTokens(entries)
    ensures TruthyTokens(entries) == [] <==> forall i :: 0 <= i < |entries| ==> !IsTruthy(entries[i].token)
    ensures (forall i :: 0 <= i < |entries| ==> IsTruthy(entries[i].token)) ==>
      TruthyTokens(entries) == seq(|entries|, i requires 0 <= i < |entries| => entries[i].token.value)
  {
    if entries != [] {
      TruthyTokensMeaning(entries[1..]);
      assert forall i :: 1 <= i < |entries| ==> entries[i] == entries[1..][i - 1];
      if forall i :: 0 <= i < |entries| ==> IsTruthy(entries[i].token) {
        var all := seq(|entries|, i requires 0 <= i < |entries| => entries[i].token.value);
        assert all == [entries[0].token.value] + seq(|entries[1..]|, i requires 0 <= i < |entries[1..]| => entries[1..][i].token.value);
      }
    }
  }

  /** Each non-empty token is kept as many times as entries carry it; the empty token never is. */
  lemma {:induction false} TruthyTokensCounts(entries: seq<BatchEntry>)
    ensures forall t :: multiset(TruthyTokens(entries))[t] == if t == "" then 0 else multiset(entries)[BatchEntry(Some(t))]
  {
    if entries != [] {
      TruthyTokensCounts(entries[1..]);
      assert entries == [entries[0]] + entries[1..];
      assert multiset(entries) == multiset{entries[0]} + multiset(entries[1..]);
    }
  }

  // ---------------------------------------------------------------- verdict aggregation

  /** The kind of failure the loop records; `AllPassed` when none was seen. */
  datatype Verdict = AllPassed | ErrorVerdict | WrongVerdict

  /** The loop's five accumulators after the last result. */
  datatype Tally = Tally(passed: nat, runtime: int, memory: int, verdict: Verdict, errorMessage: Option<string>)

  function Max(a: int, b: int): int {
    if a >= b then a else b
  }

  /** Number of accepted results. */
  function Passed(rs: seq<JudgeResult>): nat {
    if rs == [] then 0
    else Passed(rs[..|rs| - 1]) + if rs[|rs| - 1].statusId == Accepted then 1 else 0
  }

  /** Sum of the times of the accepted results. */
  function Runtime(rs: seq<JudgeResult>): int {
    if rs == [] then 0
    else Runtime(rs[..|rs| - 1]) + if rs[|rs| - 1].statusId == Accepted then rs[|rs| - 1].time else 0
  }

  /** `Math.max` of 0 and the memory of every accepted result. */
  function PeakMemory(rs: seq<JudgeResult>): int {
    if rs == [] then 0
    else if rs[|rs| - 1].statusId == Accepted then Max(PeakMemory(rs[..|rs| - 1]), rs[|rs| - 1].memory)
    else PeakMemory(rs[..|rs| - 1])
  }

  /** The last result that was not accepted, if any. */
  function LastFailure(rs: seq<JudgeResult>): Option<JudgeResult> {
    if rs == [] then None
    else if rs[|rs| - 1].statusId != Accepted then Some(rs[|rs| - 1])
    else LastFailure(rs[..|rs| - 1])
  }

  function VerdictOf(failure: Option<JudgeResult>): Verdict {
    match failure
    case None => AllPassed
    case Some(r) => if r.statusId == RuntimeError then ErrorVerdict else WrongVerdict
  }

  /** What the loop computes: counts and metrics of the accepted results, kind and stderr of the last failure. */
  function TallyOf(rs: seq<JudgeResult>): Tally {
    var failure := LastFailure(rs);
    Tally(Passed(rs), Runtime(rs), PeakMemory(rs), VerdictOf(failure),
          if failure.Some? then failure.value.stderr else None)
  }

  /** One pass over the results, updating the five accumulators; there is no `break`. */
  method AggregateResults(testResult: seq<JudgeResult>) returns (tally: Tally)
    ensures tally == TallyOf(testResult)
  {
    var testCasesPassed: nat := 0;
    var runtime := 0;
    var memory := 0;
    var status := AllPassed;
    var errorMessage: Option<string> := None;
    var i := 0;
    while i < |testResult|
      invariant 0 <= i <= |testResult|
      invariant testCasesPassed == Passed(testResult[..i])
      invariant runtime == Runtime(testResult[..i])
      invariant memory == PeakMemory(testResult[..i])
      invariant status == VerdictOf(LastFailure(testResult[..i]))
      invariant errorMessage == if LastFailure(testResult[..i]).Some? then LastFailure(testResult[..i]).value.stderr else None
    {
      var test := testResult[i];
      assert testResult[..i + 1][..i] == testResult[..i];
      if test.statusId == Accepted {
        testCasesPassed := testCasesPassed + 1;
        runtime := runtime + test.time;
        memory := Max(memory, test.memory);
      } else {
        if test.statusId == RuntimeError {
          status := ErrorVerdict;
          errorMessage := test.stderr;
        } else {
          status := WrongVerdict;
          errorMessage := test.stderr;
        }
      }
      i := i + 1;
    }
    assert testResult[..i] == testResult;
    tally := Tally(testCasesPassed, runtime, memory, status, errorMessage);
  }

  /** The pass count never exceeds the number of results, and equals it exactly when no result failed. */
  lemma {:induction false} PassedCount(rs: seq<JudgeResult>)
    ensures Passed(rs) <= |rs|
    ensures Passed(rs) == |rs| <==> AllAccepted(rs)
    ensures LastFailure(rs).None? <==> AllAccepted(rs)
  {
    if rs != [] {
      var init := rs[..|rs| - 1];
      PassedCount(init);
      assert forall i :: 0 <= i < |init| ==> init[i] == rs[i];
    }
  }

  /** The reported failure is the last one: nothing after it failed. */
  lemma {:induction false} LastFailureIsLast(rs: seq<JudgeResult>)
    ensures LastFailure(rs).Some? ==>
      exists k :: 0 <= k < |rs| && rs[k] == LastFailure(rs).value && rs[k].statusId != Accepted
                  && forall j :: k < j < |rs| ==> rs[j].statusId == Accepted
  {
    if rs != [] && rs[|rs| - 1].statusId == Accepted {
      var init := rs[..|rs| - 1];
      LastFailureIsLast(init);
      if LastFailure(init).Some? {
        var k :| 0 <= k < |init| && init[k] == LastFailure(init).value && init[k].statusId != Accepted
                 && forall j :: k < j < |init| ==> init[j].statusId == Accepted;
        assert rs[k] == init[k];
        assert forall j :: k < j < |rs| ==> rs[j].statusId == Accepted by {
          forall j | k < j < |rs| ensures rs[j].statusId == Accepted {
            if j < |init| { assert rs[j] == init[j]; }
          }
        }
      }
    }
  }

  /** The peak memory is at least every accepted result's memory, and is either 0 or one of them. */
  lemma {:induction false} PeakMemoryIsMax(rs: seq<JudgeResult>)
    ensures PeakMemory(rs) >= 0
    ensures forall i :: 0 <= i < |rs| && rs[i].statusId == Accepted ==> rs[i].memory <= PeakMemory(rs)
    ensures PeakMemory(rs) == 0
            || exists i :: 0 <= i < |rs| && rs[i].statusId == Accepted && rs[i].memory == PeakMemory(rs)
  {
    if rs != [] {
      var init := rs[..|rs| - 1];
      PeakMemoryIsMax(init);
      assert forall i :: 0 <= i < |init| ==> init[i] == rs[i];
      if PeakMemory(rs) != 0 && PeakMemory(rs) == PeakMemory(init) {
        var i :| 0 <= i < |init| && init[i].statusId == Accepted && init[i].memory == PeakMemory(init);
        assert rs[i] == init[i];
      }
    }
  }

  /** The runtime of a concatenation is the sum of the runtimes of its parts. */
  lemma {:induction false} RuntimeAdds(a: seq<JudgeResult>, b: seq<JudgeResult>)
    ensures Runtime(a + b) == Runtime(a) + Runtime(b)
    decreases |b|
  {
    if b == [] {
      assert a + b == a;
    } else {
      var b' := b[..|b| - 1];
      assert (a + b)[..|a + b| - 1] == a + b';
      assert (a + b)[|a + b| - 1] == b[|b| - 1];
      RuntimeAdds(a, b');
    }
  }

  /**
   * The failure reported is the last one, not the first: a runtime error followed by a later
   * failed case is reported as `WrongVerdict` with the later stderr, and cases after a failure still count.
   */
  lemma LastFailureWins(a: string, b: string)
    ensures var rs := [JudgeResult(Accepted, 5, 100, None), JudgeResult(RuntimeError, 0, 0, Some(a)),
                       JudgeResult(6, 0, 0, Some(b)), JudgeResult(Accepted, 7, 300, None)];
      TallyOf(rs) == Tally(2, 12, 300, WrongVerdict, Some(b))
  {
    var rs := [JudgeResult(Accepted, 5, 100, None), JudgeResult(RuntimeError, 0, 0, Some(a)),
               JudgeResult(6, 0, 0, Some(b)), JudgeResult(Accepted, 7, 300, None)];
    assert rs[..1][..0] == [];
    assert rs[..2][..1] == rs[..1];
    assert rs[..3][..2] == rs[..2];
    assert rs[..|rs| - 1] == rs[..3];
    assert rs[..1] == [rs[0]];
    assert Passed(rs[..1]) == 1 && Runtime(rs[..1]) == 5 && LastFailure(rs[..1]).None?;
    assert PeakMemory(rs[..1]) == Max(PeakMemory([]), 100) == 100;
    assert TallyOf(rs[..1]) == Tally(1, 5, 100, AllPassed, None);
    assert TallyOf(rs[..2]) == Tally(1, 5, 100, ErrorVerdict, Some(a));
    assert TallyOf(rs[..3]) == Tally(1, 5, 100, WrongVerdict, Some(b));
  }

  // ---------------------------------------------------------------- status names

  /**
   * The names the handler writes for a verdict. `AsWritten` is the handler's own, which names a
   * wrong answer `wrong`, a value the schema rejects; `Corrected` uses the schema's `wrong_answer`.
   */
  datatype StatusNames = AsWritten | Corrected

  /** The status written for a verdict: `accepted`, `error` for a runtime error, and the wrong-answer name. */
  function VerdictStatus(names: StatusNames, v: Verdict): string {
    match v
    case AllPassed => "accepted"
    case ErrorVerdict => "error"
    case WrongVerdict => if names == AsWritten then "wrong" else "wrong_answer"
  }

  /** The submission updated with the loop's accumulators. */
  function WithTally(names: StatusNames, r: SubmissionRecord, t: Tally): SubmissionRecord {
    r.(status := VerdictStatus(names, t.verdict), testCasesPassed := t.passed, errorMessage := t.errorMessage,
       runtime := t.runtime, memory := t.memory)
  }

  /** Some result was not accepted, and the last such result is not a runtime error. */
  predicate WrongAnswer(rs: seq<JudgeResult>) {
    LastFailure(rs).Some? && LastFailure(rs).value.statusId != RuntimeError
  }

  /**
   * A judged record built on a valid one is valid, except that with the names as written a wrong
   * answer makes its status, and only its status, fail; it is `accepted` exactly when every result was.
   */
  lemma JudgedRecordValidity(names: StatusNames, r: SubmissionRecord, rs: seq<JudgeResult>)
    requires IsValid(r)
    ensures IsValid(WithTally(names, r, TallyOf(rs))) <==> names == Corrected || !WrongAnswer(rs)
    ensures !IsValid(WithTally(names, r, TallyOf(rs))) ==> ValidationErrors(WithTally(names, r, TallyOf(rs))) == ["status"]
    ensures WithTally(names, r, TallyOf(rs)).status == "accepted" <==> AllAccepted(rs)
  {
    PassedCount(rs);
  }

  /**
   * As written, any judged record whose last failure is not a runtime error carries the status
   * `wrong`, which the schema rejects, so its `save` throws.
   */
  lemma WrongAnswerSaveFailsAsWritten(r: SubmissionRecord, rs: seq<JudgeResult>)
    requires IsValid(r)
    requires exists i :: 0 <= i < |rs| && rs[i].statusId != Accepted && rs[i].statusId != RuntimeError
                         && forall j :: i < j < |rs| ==> rs[j].statusId == Accepted
    ensures !IsValid(WithTally(AsWritten, r, TallyOf(rs)))
    ensures ValidationErrors(WithTally(AsWritten, r, TallyOf(rs))) == ["status"]
  {
    var i :| 0 <= i < |rs| && rs[i].statusId != Accepted && rs[i].statusId != RuntimeError
             && forall j :: i < j < |rs| ==> rs[j].statusId == Accepted;
    LastFailureIsLast(rs);
    LastFailureAt(rs, i);
  }

  /** The last failure is at the position after which every result was accepted. */
  lemma {:induction false} LastFailureAt(rs: seq<JudgeResult>, i: int)
    requires 0 <= i < |rs| && rs[i].statusId != Accepted
    requires forall j :: i < j < |rs| ==> rs[j].statusId == Accepted
    ensures LastFailure(rs) == Some(rs[i])
  {
    if i < |rs| - 1 {
      var init := rs[..|rs| - 1];
      assert init[i] == rs[i];
      assert forall j :: i < j < |init| ==> init[j] == rs[j];
      LastFailureAt(init, i);
    }
  }

  // ---------------------------------------------------------------- solved-set bookkeeping

  /** The user's two solved-list fields; `None` stands for a field that is missing or not an array. */
  datatype SolvedFields = SolvedFields(problemSolved: Option<seq<string>>, problemSovled: Option<seq<string>>)

  /** The solved list once migrated: `problemSolved`, else a copy of the misspelled `problemSovled`, else empty. */
  function MigratedList(f: SolvedFields): seq<string> {
    if f.problemSolved.Some? then f.problemSolved.value
    else if f.problemSovled.Some? then f.problemSovled.value
    else []
  }

  /** Migrate the field, then append the problem id unless an entry already equals it. */
  function Credit(f: SolvedFields, problemId: string): SolvedFields {
    var list := MigratedList(f);
    var sovled := if f.problemSolved.None? then None else f.problemSovled;
    SolvedFields(Some(if problemId in list then list else list + [problemId]), sovled)
  }

  function Occurrences(list: seq<string>, x: string): nat {
    multiset(list)[x]
  }

  /**
   * Crediting keeps every earlier entry in place, leaves the problem id in the list exactly once
   * when it was absent, and adds nothing when it was present; the misspelled field is gone after
   * a migration.
   */
  lemma CreditMeaning(f: SolvedFields, problemId: string)
    ensures var g := Credit(f, problemId);
      && g.problemSolved.Some?
      && problemId in g.problemSolved.value
      && g.problemSolved.value[..|MigratedList(f)|] == MigratedList(f)
      && Occurrences(g.problemSolved.value, problemId) == Max(1, Occurrences(MigratedList(f), problemId))
      && (f.problemSolved.None? ==> g.problemSovled.None?)
      && (f.problemSolved.Some? ==> g.problemSovled == f.problemSovled)
  {
    var list := MigratedList(f);
    if problemId !in list {
      assert multiset(list)[problemId] == 0;
      assert multiset(list + [problemId]) == multiset(list) + multiset{problemId};
    } else {
      assert multiset(list)[problemId] >= 1;
    }
  }

  /** Crediting the same problem twice is the same as crediting it once. */
  lemma CreditIdempotent(f: SolvedFields, problemId: string)
    ensures Credit(Credit(f, problemId), problemId) == Credit(f, problemId)
  {
  }

  /** The user document `req.result`, whose solved list the handler migrates and appends to in place. */
  class UserDoc {
    var problemSolved: Option<seq<string>>
    var problemSovled: Option<seq<string>>

    function Fields(): SolvedFields
      reads this
    {
      SolvedFields(problemSolved, problemSovled)
    }

    constructor (solved: Option<seq<string>>, sovled: Option<seq<string>>)
      ensures Fields() == SolvedFields(solved, sovled)
    {
      problemSolved := solved;
      problemSovled := sovled;
    }

    method CreditSolved(problemId: string)
      modifies this
      ensures Fields() == Credit(old(Fields()), problemId)
    {
      if problemSolved.None? {
        if problemSovled.Some? {
          problemSolved := Some(problemSovled.value);
          problemSovled := None;
        } else {
          problemSolved := Some([]);
        }
      }
      var alreadySolved := problemId in problemSolved.value;
      if !alreadySolved {
        problemSolved := Some(problemSolved.value + [problemId]);
      }
    }
  }

  // ---------------------------------------------------------------- submitCode

  /** A 201 body: the saved submission, or (for `runCode`) the raw judge results. */
  datatype SubmitBody = Record(submission: SubmissionRecord) | Results(results: seq<JudgeResult>)

  /** A handler's effect: its answer, the submission left in the store, whether the user was credited, the requests sent. */
  datatype SubmitFlow = SubmitFlow(
    outcome: Outcome<SubmitBody>,
    stored: Option<SubmissionRecord>,
    credited: bool,
    sent: seq<Request>)

  const InternalError := "Internal server error: "

  /** Any required value that is empty (falsy) refuses the request. */
  predicate MissingField(userId: string, code: string, problemId: string, language: string) {
    userId == "" || code == "" || problemId == "" || language == ""
  }

  /** The submission created before the judge is called. */
  function PendingRecord(userId: string, problemId: string, code: string, language: string, total: nat): SubmissionRecord {
    WithDefaults(userId, problemId, code, language).(status := "pending", testCasesTotal := total)
  }

  /** Saving `next` over `current`: when it fails validation the handler answers 500 and `current` stays stored. */
  function SaveThen(current: SubmissionRecord, next: SubmissionRecord, answer: Outcome<SubmitBody>, credit: bool, sent: seq<Request>): SubmitFlow {
    if IsValid(next) then SubmitFlow(answer, Some(next), credit, sent)
    else SubmitFlow(Fails(500, InternalError, Validation(ValidationErrors(next))), Some(current), false, sent)
  }

  /** What the judge exchange yields: the per-case results, or the answer a failed exchange sends. */
  datatype JudgeCall = Judged(results: seq<JudgeResult>) | JudgeFailed(answer: Outcome<SubmitBody>)

  /**
   * The exchange shared by `submitCode` and `runCode`: a non-array or empty batch reply and a reply without
   * a usable token are answered 502; a poll that throws is answered 500; an unfinished poll keeps waiting.
   */
  function CallJudge(judge: Exchange): JudgeCall {
    var reply := SubmitBatch(judge.batch);
    if reply.NotArray? || reply.entries == [] then JudgeFailed(Says(502, "Judge submission failed"))
    else if TruthyTokens(reply.entries) == [] then JudgeFailed(Says(502, "Judge returned no tokens"))
    else match Settle(judge.polls)
      case Threw(e) => JudgeFailed(Fails(500, InternalError, Thrown(e)))
      case Polling => JudgeFailed(StillPolling)
      case Finished(results) => Judged(results)
  }

  /** Sends the batch, collects the truthy tokens and polls until every case is done. */
  method CallJudgeOnce(judge: Exchange) returns (call: JudgeCall)
    ensures call == CallJudge(judge)
  {
    var submitResult := SubmitBatch(judge.batch);
    if submitResult.NotArray? || |submitResult.entries| == 0 {
      return JudgeFailed(Says(502, "Judge submission failed"));
    }
    var resultToken := TruthyTokens(submitResult.entries);
    if |resultToken| == 0 {
      return JudgeFailed(Says(502, "Judge returned no tokens"));
    }
    var poll, _, _ := AwaitCompletion(resultToken, judge.polls);
    match poll {
      case Threw(e) => call := JudgeFailed(Fails(500, InternalError, Thrown(e)));
      case Polling => call := JudgeFailed(StillPolling);
      case Finished(testResult) => call := Judged(testResult);
    }
  }

  /**
   * After the pending submission was created: the unknown-language record, the
   * zero-case record, or the judged record; a failed judge exchange leaves the pending record.
   */
  function JudgeFlow(names: StatusNames, pending: SubmissionRecord, code: string, language: string, hidden: seq<TestCase>,
                     judge: Exchange): SubmitFlow
  {
    match Resolve(language)
    case None =>
      var failed := pending.(status := "error", errorMessage := Some("Invalid language: " + language));
      SaveThen(pending, failed, Says(400, "Invalid language: " + language), false, [])
    case Some(id) =>
      if |hidden| == 0 then
        var done := pending.(status := "accepted", testCasesPassed := 0, errorMessage := None, runtime := 0, memory := 0);
        SaveThen(pending, done, Sends(201, Record(done)), false, [])
      else
        JudgedFlow(names, pending, code, id, hidden, judge)
  }

  /** The requests for the hidden cases, the judge exchange and the judged record. */
  function JudgedFlow(names: StatusNames, pending: SubmissionRecord, code: string, id: int, hidden: seq<TestCase>, judge: Exchange): SubmitFlow {
    var sent := BuildRequests(code, Some(id), hidden);
    match CallJudge(judge)
    case JudgeFailed(answer) => SubmitFlow(answer, Some(pending), false, sent)
    case Judged(results) =>
      var judged := WithTally(names, pending, TallyOf(results));
      SaveThen(pending, judged, Sends(201, Record(judged)), true, sent)
  }

  /** The effect of `submitCode` for the status names, a problem lookup result, the request values and the judge's answers. */
  function SubmitSpec(names: StatusNames, problem: Option<Problem>, userId: string, problemId: string, code: string, language: string,
                      judge: Exchange): SubmitFlow
  {
    if MissingField(userId, code, problemId, language) then SubmitFlow(Says(400, "Some field missing"), None, false, [])
    else if problem.None? then SubmitFlow(Says(404, "Problem not found"), None, false, [])
    else
      var pending := PendingRecord(userId, problemId, code, language, |problem.value.hidden|);
      if !IsValid(pending) then SubmitFlow(Fails(500, InternalError, Validation(ValidationErrors(pending))), None, false, [])
      else JudgeFlow(names, pending, code, language, problem.value.hidden, judge)
  }

  /**
   * `submitCode`. `newId` is the id the store gives the new submission; `judge` is what the
   * judge answers to the batch and to each poll; `names` are the status names written for a
   * verdict, `AsWritten` being the handler's own.
   */
  method SubmitCode(names: StatusNames, db: SubmissionStore, problems: ProblemStore, user: UserDoc,
                    userId: string, problemId: string, code: string, language: string,
                    newId: string, judge: Exchange)
    returns (out: Outcome<SubmitBody>, sent: seq<Request>)
    modifies db, user
    ensures var flow := SubmitSpec(names, old(problems.FindById(problemId)), userId, problemId, code, language, judge);
      && out == flow.outcome
      && sent == flow.sent
      && db.records == (if flow.stored.Some? then old(db.records)[newId := flow.stored.value] else old(db.records))
      && user.Fields() == (if flow.credited then Credit(old(user.Fields()), problemId) else old(user.Fields()))
  {
    sent := [];
    if MissingField(userId, code, problemId, language) {
      return Says(400, "Some field missing"), sent;
    }
    var problem := problems.FindById(problemId);
    if problem.None? {
      return Says(404, "Problem not found"), sent;
    }
    var hiddenTestCases := problem.value.hidden;
    var submittedResult := PendingRecord(userId, problemId, code, language, |hiddenTestCases|);
    var error := db.Save(newId, submittedResult);
    if error.Some? {
      return Fails(500, InternalError, error.value), sent;
    }
    assert SubmitSpec(names, problem, userId, problemId, code, language, judge)
      == JudgeFlow(names, submittedResult, code, language, hiddenTestCases, judge);
    out, sent := Evaluate(names, db, user, newId, submittedResult, problemId, code, language, hiddenTestCases, judge);
  }

  /** The part of `submitCode` after the pending submission `submittedResult` was saved under `newId`. */
  method Evaluate(names: StatusNames, db: SubmissionStore, user: UserDoc, newId: string, submittedResult: SubmissionRecord,
                  problemId: string, code: string, language: string, hiddenTestCases: seq<TestCase>, judge: Exchange)
    returns (out: Outcome<SubmitBody>, sent: seq<Request>)
    requires newId in db.records && db.records[newId] == submittedResult
    modifies db, user
    ensures var flow := JudgeFlow(names, submittedResult, code, language, hiddenTestCases, judge);
      && out == flow.outcome
      && sent == flow.sent
      && flow.stored.Some?
      && db.records == old(db.records)[newId := flow.stored.value]
      && user.Fields() == (if flow.credited then Credit(old(user.Fields()), problemId) else old(user.Fields()))
  {
    sent := [];
    var languageId := ResolveLanguage(language);
    if languageId.None? {
      var failed := submittedResult.(status := "error", errorMessage := Some("Invalid language: " + language));
      out := SaveAndAnswer(db, newId, submittedResult, failed, Says(400, "Invalid language: " + language));
      return;
    }
    if |hiddenTestCases| == 0 {
      var done := submittedResult.(status := "accepted", testCasesPassed := 0, errorMessage := None,
                                   runtime := 0, memory := 0);
      out := SaveAndAnswer(db, newId, submittedResult, done, Sends(201, Record(done)));
      return;
    }
    out, sent := JudgeAndRecord(names, db, user, newId, submittedResult, problemId, code, languageId.value, hiddenTestCases, judge);
  }

  /** Judge the hidden cases, save the judged record and credit the user. */
  method JudgeAndRecord(names: StatusNames, db: SubmissionStore, user: UserDoc, newId: string, submittedResult: SubmissionRecord,
                        problemId: string, code: string, id: int, hiddenTestCases: seq<TestCase>, judge: Exchange)
    returns (out: Outcome<SubmitBody>, sent: seq<Request>)
    requires newId in db.records && db.records[newId] == submittedResult
    modifies db, user
    ensures var flow := JudgedFlow(names, submittedResult, code, id, hiddenTestCases, judge);
      && out == flow.outcome
      && sent == flow.sent
      && flow.stored.Some?
      && db.records == old(db.records)[newId := flow.stored.value]
      && user.Fields() == (if flow.credited then Credit(old(user.Fields()), problemId) else old(user.Fields()))
  {
    sent := BuildRequests(code, Some(id), hiddenTestCases);
    var call := CallJudgeOnce(judge);
    match call {
      case JudgeFailed(answer) =>
        out := answer;
        assert db.records == old(db.records)[newId := submittedResult];
      case Judged(testResult) =>
        var tally := AggregateResults(testResult);
        var judged := WithTally(names, submittedResult, tally);
        out := SaveAndAnswer(db, newId, submittedResult, judged, Sends(201, Record(judged)));
        if IsValid(judged) {
          user.CreditSolved(problemId);
        } else {
          assert db.records == old(db.records)[newId := submittedResult];
        }
    }
  }

  /** `await submittedResult.save()` followed by the answer; a save that throws is answered 500. */
  method SaveAndAnswer(db: SubmissionStore, newId: string, current: SubmissionRecord, next: SubmissionRecord,
                       answer: Outcome<SubmitBody>)
    returns (out: Outcome<SubmitBody>)
    modifies db
    ensures var flow := SaveThen(current, next, answer, false, []);
      && out == flow.outcome
      && db.records == (if IsValid(next) then old(db.records)[newId := next] else old(db.records))
  {
    var error := db.Save(newId, next);
    if error.Some? {
      return Fails(500, InternalError, error.value);
    }
    out := answer;
  }

  /**
   * A pending submission is created exactly when the four values are present and the language is
   * one the schema lists; otherwise the create throws and is answered 500 with nothing stored.
   */
  lemma CreateValidation(names: StatusNames, problem: Problem, userId: string, problemId: string, code: string, language: string,
                         judge: Exchange)
    requires !MissingField(userId, code, problemId, language)
    ensures var flow := SubmitSpec(names, Some(problem), userId, problemId, code, language, judge);
      && (flow.stored.Some? <==> language in LanguageEnum)
      && (language !in LanguageEnum ==>
            flow.outcome == Fails(500, InternalError, Validation(["language"])) && !flow.credited && flow.sent == [])
  {
    var pending := PendingRecord(userId, problemId, code, language, |problem.hidden|);
    assert pending.status == StatusEnum[0];
    if language !in LanguageEnum {
      assert ValidationErrors(pending) == ["language"];
    }
  }

  /**
   * Once the pending submission exists the language always resolves, so the 400
   * "Invalid language" answer is never sent and the judge is always called
   * when there are hidden cases.
   */
  lemma InvalidLanguageUnreachable(names: StatusNames, problem: Option<Problem>, userId: string, problemId: string, code: string,
                                   language: string, judge: Exchange)
    ensures SubmitSpec(names, problem, userId, problemId, code, language, judge).outcome != Says(400, "Invalid language: " + language)
  {
    assert ("Invalid language: " + language)[0] == 'I';
    if problem.Some? && !MissingField(userId, code, problemId, language) && language in LanguageEnum {
      var hidden := problem.value.hidden;
      SubmitReachesJudge(names, problem.value, userId, problemId, code, language, judge);
      if hidden != [] {
        JudgedFlowCases(names, PendingRecord(userId, problemId, code, language, |hidden|), code, Resolve(language).value, hidden, judge);
      } else {
        NoHiddenCases(names, problem.value, userId, problemId, code, language, judge);
      }
    }
  }

  /** With the four values present and a schema language, the pending record is valid and the judge flow follows. */
  lemma SubmitReachesJudge(names: StatusNames, problem: Problem, userId: string, problemId: string, code: string, language: string,
                           judge: Exchange)
    requires !MissingField(userId, code, problemId, language) && language in LanguageEnum
    ensures IsValid(PendingRecord(userId, problemId, code, language, |problem.hidden|))
    ensures Resolve(language).Some?
    ensures SubmitSpec(names, Some(problem), userId, problemId, code, language, judge) ==
      JudgeFlow(names, PendingRecord(userId, problemId, code, language, |problem.hidden|), code, language, problem.hidden, judge)
    ensures problem.hidden != [] ==>
      SubmitSpec(names, Some(problem), userId, problemId, code, language, judge) ==
      JudgedFlow(names, PendingRecord(userId, problemId, code, language, |problem.hidden|), code, Resolve(language).value,
                 problem.hidden, judge)
  {
    SchemaLanguagesResolve(language);
  }

  /** The judged record's save throws: the names are the handler's own and the verdict is a wrong answer. */
  predicate SaveRejected(names: StatusNames, judge: Exchange) {
    names == AsWritten && CallJudge(judge).Judged? && WrongAnswer(CallJudge(judge).results)
  }

  /**
   * The three ways the judged part ends: a failed exchange or a rejected save leaves the pending
   * record and credits nothing; otherwise the valid judged record is saved, answered 201 and credited.
   */
  lemma JudgedFlowCases(names: StatusNames, pending: SubmissionRecord, code: string, id: int, hidden: seq<TestCase>,
                        judge: Exchange)
    requires IsValid(pending)
    ensures var flow := JudgedFlow(names, pending, code, id, hidden, judge);
      && flow.sent == BuildRequests(code, Some(id), hidden)
      && (CallJudge(judge).JudgeFailed? ==>
            flow.outcome == CallJudge(judge).answer && flow.stored == Some(pending) && !flow.credited)
      && (SaveRejected(names, judge) ==>
            flow.outcome == Fails(500, InternalError, Validation(["status"])) && flow.stored == Some(pending) && !flow.credited)
      && (CallJudge(judge).Judged? && !SaveRejected(names, judge) ==>
            var judged := WithTally(names, pending, TallyOf(CallJudge(judge).results));
            flow.outcome == Sends(201, Record(judged)) && flow.stored == Some(judged) && flow.credited && IsValid(judged))
  {
    if CallJudge(judge).Judged? {
      JudgedRecordValidity(names, pending, CallJudge(judge).results);
    }
  }

  /**
   * Every submission left in the store belongs to the request, counts the problem's hidden cases
   * and passes validation; it stays `pending` exactly when the judge exchange did not complete or
   * the judged record's save was rejected.
   */
  lemma StoredRecordInvariant(names: StatusNames, problem: Problem, userId: string, problemId: string, code: string,
                              language: string, judge: Exchange)
    ensures var flow := SubmitSpec(names, Some(problem), userId, problemId, code, language, judge);
      flow.stored.Some? ==>
        var r := flow.stored.value;
        && r.userId == userId && r.problemId == problemId && r.code == code && r.language == language
        && r.testCasesTotal == |problem.hidden|
        && IsValid(r)
        && (r.status == "pending" <==>
              problem.hidden != [] && (CallJudge(judge).JudgeFailed? || SaveRejected(names, judge)))
  {
    if !MissingField(userId, code, problemId, language) && language in LanguageEnum {
      SubmitReachesJudge(names, problem, userId, problemId, code, language, judge);
      if problem.hidden != [] {
        JudgedFlowCases(names, PendingRecord(userId, problemId, code, language, |problem.hidden|), code, Resolve(language).value, problem.hidden, judge);
        if CallJudge(judge).Judged? {
          assert VerdictStatus(names, TallyOf(CallJudge(judge).results).verdict) != "pending";
        }
      }
    } else if !MissingField(userId, code, problemId, language) {
      CreateValidation(names, problem, userId, problemId, code, language, judge);
    }
  }

  predicate IsValidationFailure(o: Outcome<SubmitBody>) {
    o.Respond? && o.reply.Failure? && o.reply.fault.Validation?
  }

  /**
   * After the create succeeded, the only save that can fail validation is that of a wrong answer
   * under the handler's own names, and it fails at `status`.
   */
  lemma SaveFailsOnlyOnWrongAnswer(names: StatusNames, problem: Problem, userId: string, problemId: string, code: string,
                                   language: string, judge: Exchange)
    requires language in LanguageEnum
    ensures var out := SubmitSpec(names, Some(problem), userId, problemId, code, language, judge).outcome;
      && (IsValidationFailure(out) <==>
            !MissingField(userId, code, problemId, language) && problem.hidden != [] && SaveRejected(names, judge))
      && (IsValidationFailure(out) ==> out == Fails(500, InternalError, Validation(["status"])))
  {
    if !MissingField(userId, code, problemId, language) {
      SubmitReachesJudge(names, problem, userId, problemId, code, language, judge);
      if problem.hidden != [] {
        JudgedFlowCases(names, PendingRecord(userId, problemId, code, language, |problem.hidden|), code, Resolve(language).value, problem.hidden, judge);
      } else {
        NoHiddenCases(names, problem, userId, problemId, code, language, judge);
      }
    }
  }

  /**
   * The user is credited with the problem exactly when the judge returned results for every
   * hidden case and the judged record was saved, whether it passed or not; a problem without
   * hidden cases is accepted uncredited.
   */
  lemma CreditedIffJudged(names: StatusNames, problem: Problem, userId: string, problemId: string, code: string,
                          language: string, judge: Exchange)
    ensures SubmitSpec(names, Some(problem), userId, problemId, code, language, judge).credited <==>
      !MissingField(userId, code, problemId, language) && language in LanguageEnum
      && problem.hidden != [] && CallJudge(judge).Judged? && !SaveRejected(names, judge)
  {
    if !MissingField(userId, code, problemId, language) && language in LanguageEnum {
      SubmitReachesJudge(names, problem, userId, problemId, code, language, judge);
      if problem.hidden != [] {
        JudgedFlowCases(names, PendingRecord(userId, problemId, code, language, |problem.hidden|), code, Resolve(language).value, problem.hidden, judge);
      } else {
        NoHiddenCases(names, problem, userId, problemId, code, language, judge);
      }
    }
  }

  /**
   * A problem without hidden cases is answered 201 with an accepted record that passed 0 of 0
   * cases, with no runtime, memory or error message, and the judge is not called.
   */
  lemma NoHiddenCases(names: StatusNames, problem: Problem, userId: string, problemId: string, code: string,
                      language: string, judge: Exchange)
    requires !MissingField(userId, code, problemId, language) && language in LanguageEnum
    requires problem.hidden == []
    ensures var flow := SubmitSpec(names, Some(problem), userId, problemId, code, language, judge);
      && flow.outcome.Respond? && flow.outcome.status == 201
      && flow.stored.Some? && flow.outcome.reply == Payload(Record(flow.stored.value))
      && flow.stored.value.status == "accepted"
      && flow.stored.value.testCasesPassed == 0 && flow.stored.value.testCasesTotal == 0
      && flow.stored.value.runtime == 0 && flow.stored.value.memory == 0
      && flow.stored.value.errorMessage.None?
      && flow.sent == [] && !flow.credited
  {
    SubmitReachesJudge(names, problem, userId, problemId, code, language, judge);
  }

  /**
   * When the judge answers, one request per hidden case is sent, in order, with the submitted code
   * and the resolved id. The answer is 201 with the judged record unless its save was rejected,
   * which is answered 500. The stored record is `accepted` exactly when every result was, and
   * when the judge returns one result per case, exactly when every case passed.
   */
  lemma JudgedSubmission(names: StatusNames, problem: Problem, userId: string, problemId: string, code: string,
                         language: string, judge: Exchange)
    requires !MissingField(userId, code, problemId, language) && language in LanguageEnum
    requires problem.hidden != [] && CallJudge(judge).Judged?
    ensures var flow := SubmitSpec(names, Some(problem), userId, problemId, code, language, judge);
      var results := CallJudge(judge).results;
      && flow.stored.Some?
      && CasesOf(flow.sent) == problem.hidden
      && (forall i :: 0 <= i < |flow.sent| ==> flow.sent[i].sourceCode == code && flow.sent[i].languageId == Resolve(language))
      && flow.outcome == (if SaveRejected(names, judge) then Fails(500, InternalError, Validation(["status"]))
                          else Sends(201, Record(flow.stored.value)))
      && (flow.stored.value.status == "accepted" <==> AllAccepted(results))
      && flow.stored.value.testCasesPassed <= |results|
      && (|results| == |problem.hidden| ==>
            (flow.stored.value.status == "accepted" <==> flow.stored.value.testCasesPassed == flow.stored.value.testCasesTotal))
  {
    SubmitReachesJudge(names, problem, userId, problemId, code, language, judge);
    var results := CallJudge(judge).results;
    var pending := PendingRecord(userId, problemId, code, language, |problem.hidden|);
    JudgedFlowCases(names, pending, code, Resolve(language).value, problem.hidden, judge);
    JudgedRecordValidity(names, pending, results);
    PassedCount(results);
    BuildRequestsFaithful(code, Resolve(language), problem.hidden);
  }

  /**
   * As written, a judged wrong answer is lost: the save throws and is answered 500, the pending
   * record stays stored and the user is not credited.
   */
  lemma WrongAnswerLostAsWritten(problem: Problem, userId: string, problemId: string, code: string, language: string,
                                 judge: Exchange)
    requires !MissingField(userId, code, problemId, language) && language in LanguageEnum
    requires problem.hidden != [] && CallJudge(judge).Judged? && WrongAnswer(CallJudge(judge).results)
    ensures var flow := SubmitSpec(AsWritten, Some(problem), userId, problemId, code, language, judge);
      && flow.outcome == Fails(500, InternalError, Validation(["status"]))
      && flow.stored == Some(PendingRecord(userId, problemId, code, language, |problem.hidden|))
      && !flow.credited
  {
    SubmitReachesJudge(AsWritten, problem, userId, problemId, code, language, judge);
    JudgedFlowCases(AsWritten, PendingRecord(userId, problemId, code, language, |problem.hidden|), code, Resolve(language).value, problem.hidden, judge);
  }

  /** With the schema's name, the same wrong answer is saved as `wrong_answer`, answered 201 and credited. */
  lemma WrongAnswerRecordedWhenCorrected(problem: Problem, userId: string, problemId: string, code: string,
                                         language: string, judge: Exchange)
    requires !MissingField(userId, code, problemId, language) && language in LanguageEnum
    requires problem.hidden != [] && CallJudge(judge).Judged? && WrongAnswer(CallJudge(judge).results)
    ensures var flow := SubmitSpec(Corrected, Some(problem), userId, problemId, code, language, judge);
      && flow.stored.Some? && flow.stored.value.status == "wrong_answer" && IsValid(flow.stored.value)
      && flow.outcome == Sends(201, Record(flow.stored.value))
      && flow.credited
  {
    SubmitReachesJudge(Corrected, problem, userId, problemId, code, language, judge);
    JudgedFlowCases(Corrected, PendingRecord(userId, problemId, code, language, |problem.hidden|), code, Resolve(language).value, problem.hidden, judge);
    JudgedRecordValidity(Corrected, PendingRecord(userId, problemId, code, language, |problem.hidden|), CallJudge(judge).results);
  }

  /**
   * A judge exchange that fails leaves the pending submission in the store, credits nothing and
   * forwards the exchange's own answer.
   */
  lemma JudgeFailureLeavesPending(names: StatusNames, problem: Problem, userId: string, problemId: string, code: string, language: string,
                                  judge: Exchange)
    requires !MissingField(userId, code, problemId, language) && language in LanguageEnum
    requires problem.hidden != [] && CallJudge(judge).JudgeFailed?
    ensures var flow := SubmitSpec(names, Some(problem), userId, problemId, code, language, judge);
      && flow.outcome == CallJudge(judge).answer
      && flow.stored == Some(PendingRecord(userId, problemId, code, language, |problem.hidden|))
      && !flow.credited
  {
    SubmitReachesJudge(names, problem, userId, problemId, code, language, judge);
    JudgedFlowCases(names, PendingRecord(userId, problemId, code, language, |problem.hidden|), code, Resolve(language).value, problem.hidden, judge);
  }

  /** The table names resolve to their own ids. */
  lemma ResolveTableNames()
    ensures Resolve("c") == Some(50) && Resolve("java") == Some(62)
    ensures Resolve("javascript") == Some(63) && Resolve("python") == Some(71)
  {
    LowerOfLower("c");
    LowerOfLower("java");
    LowerOfLower("javascript");
    LowerOfLower("python");
  }

  /** The sample problem: a Python submission sends one request per hidden case, with language 71. */
  lemma SampleSubmissionRequests(names: StatusNames, problem: Problem, userId: string, problemId: string, code: string, judge: Exchange)
    requires userId != "" && problemId != "" && code != ""
    requires problem.hidden == [TestCase("10 20", "30"), TestCase("-5 -7", "-12")]
    ensures SubmitSpec(names, Some(problem), userId, problemId, code, "python", judge).sent ==
      [Request(code, Some(71), "10 20", "30"), Request(code, Some(71), "-5 -7", "-12")]
  {
    ResolveTableNames();
    assert "python" == LanguageEnum[1];
    SubmitReachesJudge(names, problem, userId, problemId, code, "python", judge);
    JudgedFlowCases(names, PendingRecord(userId, problemId, code, "python", |problem.hidden|), code, 71, problem.hidden, judge);
    var hidden := problem.hidden;
    assert hidden[1..][1..] == [];
    assert BuildRequests(code, Some(71), hidden) ==
      [Request(code, Some(71), "10 20", "30"), Request(code, Some(71), "-5 -7", "-12")];
  }

  // ---------------------------------------------------------------- runCode

  /**
   * The effect of `runCode`: like `submitCode` on the visible cases, but nothing is created or
   * saved. Its branches for an unknown language and for zero cases use the undeclared
   * `submittedResult`, which throws a ReferenceError answered with 500.
   */
  function RunSpec(problem: Option<Problem>, userId: string, problemId: string, code: string, language: string,
                   judge: Exchange): SubmitFlow
  {
    if MissingField(userId, code, problemId, language) then SubmitFlow(Says(400, "Some field missing"), None, false, [])
    else if problem.None? then SubmitFlow(Says(404, "Problem not found"), None, false, [])
    else
      var visible := problem.value.visible;
      match Resolve(language)
      case None => SubmitFlow(Fails(500, InternalError, Reference("submittedResult")), None, false, [])
      case Some(id) =>
        if |visible| == 0 then SubmitFlow(Fails(500, InternalError, Reference("submittedResult")), None, false, [])
        else
          var sent := BuildRequests(code, Some(id), visible);
          match CallJudge(judge)
          case JudgeFailed(answer) => SubmitFlow(answer, None, false, sent)
          case Judged(results) => SubmitFlow(Sends(201, Results(results)), None, false, sent)
  }

  /** `runCode`: reads the problem, calls the judge, and answers with the raw results; it changes no state. */
  method RunCode(problems: ProblemStore, userId: string, problemId: string, code: string, language: string,
                 judge: Exchange)
    returns (out: Outcome<SubmitBody>, sent: seq<Request>)
    ensures out == RunSpec(problems.FindById(problemId), userId, problemId, code, language, judge).outcome
    ensures sent == RunSpec(problems.FindById(problemId), userId, problemId, code, language, judge).sent
  {
    sent := [];
    if MissingField(userId, code, problemId, language) {
      return Says(400, "Some field missing"), sent;
    }
    var problem := problems.FindById(problemId);
    if problem.None? {
      return Says(404, "Problem not found"), sent;
    }
    var visibleTestCases := problem.value.visible;
    var languageId := ResolveLanguage(language);
    if languageId.None? || |visibleTestCases| == 0 {
      return Fails(500, InternalError, Reference("submittedResult")), sent;
    }
    sent := BuildRequests(code, languageId, visibleTestCases);
    var call := CallJudgeOnce(judge);
    match call {
      case JudgeFailed(answer) => out := answer;
      case Judged(testResult) => out := Sends(201, Results(testResult));
    }
  }

  /** `runCode` never stores or credits anything, and answers exactly like `submitCode` before the judge is called. */
  lemma RunNeverRecords(names: StatusNames, problem: Option<Problem>, userId: string, problemId: string, code: string, language: string,
                        judge: Exchange)
    ensures var flow := RunSpec(problem, userId, problemId, code, language, judge);
      flow.stored.None? && !flow.credited
    ensures MissingField(userId, code, problemId, language) || problem.None? ==>
      RunSpec(problem, userId, problemId, code, language, judge).outcome ==
      SubmitSpec(names, problem, userId, problemId, code, language, judge).outcome
  {
  }

  /**
   * An unresolvable language, or a problem without visible cases, makes `runCode` throw a
   * ReferenceError (it names a submission it never created), answered 500 without calling the judge.
   */
  lemma RunReferenceError(problem: Problem, userId: string, problemId: string, code: string, language: string,
                          judge: Exchange)
    requires !MissingField(userId, code, problemId, language)
    requires Resolve(language).None? || problem.visible == []
    ensures RunSpec(Some(problem), userId, problemId, code, language, judge) ==
      SubmitFlow(Fails(500, InternalError, Reference("submittedResult")), None, false, [])
  {
  }

  /** The aliases are reachable only here: `py` is run against the visible cases with language 71. */
  lemma AliasRuns(problem: Problem, userId: string, problemId: string, code: string, judge: Exchange)
    requires userId != "" && problemId != "" && code != "" && problem.visible != []
    ensures RunSpec(Some(problem), userId, problemId, code, "py", judge).sent == BuildRequests(code, Some(71), problem.visible)
  {
    ResolveShortAliases();
  }

  /** The same `py` submission is refused by the schema before the judge is called. */
  lemma AliasCannotBeSubmitted(names: StatusNames, problem: Problem, userId: string, problemId: string, code: string, judge: Exchange)
    requires userId != "" && problemId != "" && code != ""
    ensures SubmitSpec(names, Some(problem), userId, problemId, code, "py", judge).outcome ==
      Fails(500, InternalError, Validation(["language"]))
  {
    CreateValidation(names, problem, userId, problemId, code, "py", judge);
    LanguageEnumIsLowerCaseOnly();
  }
}
