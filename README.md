# Code-submission evaluation pipeline, modelled in Dafny

This project models the judging core of an online coding-practice platform. The Day05 backend
hands submitted code to a Judge0 service and records the verdict. Its parts:

- `submitCode` resolves a language name to a judge id, including a chain of aliases.
- It creates a `pending` Submission record and builds one judge request per hidden test case.
- It keeps only the truthy tokens of the batch reply and polls until every case has finished.
- It folds the per-case results into a verdict, counts and metrics.
- It saves the record and credits the problem to the user's solved list, migrating the
  misspelled legacy field first.
- `runCode` does the same on the visible cases and stores nothing.
- `createProblem` and `updateProblem` accept a problem only when every reference solution passes
  every visible case.
- `deleteProblem` and `getAllProblem` report missing problems.
- The Submission schema supplies the enumerations, defaults and validation.
- The older Day04 language table is modelled alongside.
- From the front end: the starter-code lookup, the empty-code check and the guard before run and
  submit (problem page), and the problem-list filter and difficulty badge (home page).

The judge is an oracle. A value of type `Exchange` supplies the reply to the batch POST and then the
reply to each poll, in order. The poll loop in the source has no bound. When the oracle runs out
before a reply in which every case is finished, the outcome is `StillPolling`: the handler never
answers.

Each handler answers with an `Outcome`: a status code and either a text message, a failure
(message prefix plus the fault that was thrown) or a payload. The Mongoose collections are
classes holding a `map` (submissions) or a `seq` (problems), and their `Save`, `Insert`, `Replace`
and `Remove` methods change that state. Schema validation runs on every create and save, as
Mongoose does. This matters here:

- The language enumeration has no `c++`, `py` or `js`. So every language that gets past `create`
  resolves in the table (`cpp` through its alias `c++`), and the 400 "Invalid language" branch of
  `submitCode` cannot be reached (`InvalidLanguageUnreachable`). The aliases `py`, `js` and `c++` are
  reachable only through `runCode`.
- The status `wrong`, written for a wrong answer, is not in the status enumeration (see Findings).
  The handler model takes the status names as a parameter of type `StatusNames`. `AsWritten` is
  the handler as written: a wrong answer's save throws, the answer is 500, the record stays
  `pending` and the user is not credited. `Corrected` uses the enumeration's `wrong_answer`. Every
  lemma about the handler is stated for both, and the difference is spelled out through
  `SaveRejected`.

The model follows the code as written, including where it departs from what its names suggest:

- The aggregation loop has no `break`, so the reported failure is the *last* non-accepted result.
- The solved list is credited after every judged submission whose record is saved, not only an
  accepted one. As written, that excludes wrong answers, whose save is rejected.
- `runCode` ignores the custom test case the front end sends.
- In `runCode`, the unknown-language and zero-visible-case branches use a `submittedResult` that
  is never declared. They throw a ReferenceError, which is answered with 500.

Modules:

| module | file | models |
|---|---|---|
| `Base` | base.dfy | `Option` |
| `Text` | text.dfy | ASCII lower-casing, `includes`, `trim` |
| `Responses` | responses.dfy | outcomes and faults |
| `ProblemUtility` | problem_utility.dfy | Day05 language table, judge data, request building, `submitBatch`, `submitToken` |
| `LegacyProblemUtility` | legacy_problem_utility.dfy | Day04 language table |
| `SubmissionModel` | submission_model.dfy | Submission schema and the submission collection |
| `UserProblem` | user_problem.dfy | problem collection, reference-solution gate, problem handlers |
| `UserSubmission` | user_submission.dfy | `submitCode`, `runCode` |
| `ProblemPage` | problem_page.dfy | `getStarterCode`, `isEmptyCode`, run/submit guard |
| `Homepage` | homepage.dfy | `filteredProblems`, `getDifficultyBadgeColor` |

## Model

| member | source | states |
|---|---|---|
| Text.ToLower | Day05/src/utils/problemUtility.js:12 | lower-casing keeps the length and maps every character through the ASCII upper-to-lower rule (this contract is the definition; `LowerOfLower` states its properties) |
| Text.LowerOfLower | Day05/src/utils/problemUtility.js:12 | a lower-cased string has no upper-case letter, lower-casing is idempotent, and a string without capitals is unchanged |
| Text.ContainsIff | Frontend/src/pages/Homepage.jsx:49 | `includes` holds exactly when the pattern occurs at some position |
| Text.Trim | Frontend/src/pages/ProblemPage.jsx:177 | the trimmed text is a contiguous slice with only white space outside it, and it neither starts nor ends with white space |
| Text.TrimIdempotent | Frontend/src/pages/ProblemPage.jsx:270 | trimming already trimmed code changes nothing |
| Text.TrimOfTrimmed | Frontend/src/pages/ProblemPage.jsx:270 | a string with no white space at its ends is its own trim |
| ProblemUtility.LanguageIdTable | Day05/src/utils/problemUtility.js:3-13 | the lookup gives c→50, c++→54, java→62, javascript→63, python→71 for the lower-cased name, each in both directions, and nothing for any other name |
| ProblemUtility.LanguageIdCaseInsensitive | Day05/src/utils/problemUtility.js:12 | lower-casing the argument first never changes the result |
| ProblemUtility.LanguageIdRejectsAliases | Day05/src/utils/problemUtility.js:4-12 | cpp, js, py, python3, nodejs and cpp17 give nothing; C++ gives 54 and Python 71 |
| ProblemUtility.BuildRequestsFaithful | Day05/src/controllers/userSubmission.js:82-87 | one request per case in order: request i carries the code, the id, case i's input as stdin and its output as the expected output, and the cases read back from the requests are exactly the input cases |
| ProblemUtility.SubmitBatch | Day05/src/utils/problemUtility.js:34-43 | a failed request yields a non-array (undefined) instead of an exception; a delivered body is returned unchanged |
| ProblemUtility.TokensParamRoundTrip | Day05/src/utils/problemUtility.js:53 | all tokens travel in one comma-joined parameter, and splitting it gives back exactly the token list |
| ProblemUtility.FirstDecisiveIsFirst | Day05/src/utils/problemUtility.js:63-71 | every reply before the one that ends the loop is unfinished, and that reply threw or has every case finished |
| ProblemUtility.FirstDecisiveAt | Day05/src/utils/problemUtility.js:63-71 | the reply that ends the loop is uniquely determined by its position |
| ProblemUtility.SettleMeaning | Day05/src/utils/problemUtility.js:63-68 | the loop returns exactly the submissions of the first reply with every `status_id > 2`, propagates the error of a reply that throws first, and goes on polling exactly while every reply is unfinished |
| ProblemUtility.EmptyReplyIsDone | Day05/src/utils/problemUtility.js:67 | an empty submissions list ends the loop at once with no results |
| ProblemUtility.AwaitCompletion | Day05/src/utils/problemUtility.js:46-72 | the loop's outcome is `Settle`'s, it sends one poll per reply up to and including the decisive one, each carrying the joined tokens, and it waits 1000 ms after each unfinished reply |
| LegacyProblemUtility.LegacyLanguageIdTable | Day04/src/utils/problemUtility.js:3-13 | the Day04 lookup gives c++→105, c→103, java→91, javascript→102, python→109 in both directions, and nothing for any other name |
| LegacyProblemUtility.LegacyLanguageIdCaseInsensitive | Day04/src/utils/problemUtility.js:12 | the Day04 lookup ignores case |
| LegacyProblemUtility.TablesAgreeOnNamesOnly | Day04/src/utils/problemUtility.js:4-10 | both tables have the same key set, and every name gets a different id from each |
| SubmissionModel.WithDefaults | Day05/src/models/submission.js:28-69 | a new record keeps the four given values and has status `pending`, zero metrics and counts, and an empty error message |
| SubmissionModel.ValidationErrors | Day05/src/models/submission.js:4-43 | validation fails exactly when a required value is empty or the language or status is outside its enumeration, and it names `language` and `status` exactly when those are the failing fields |
| SubmissionModel.DefaultsValid | Day05/src/models/submission.js:4-69 | with the required values present, a record at its defaults is valid exactly when its language is in the enumeration |
| SubmissionModel.LanguageEnumIsLowerCaseOnly | Day05/src/models/submission.js:24 | `c++`, `C++`, `py`, `js` and `JavaScript` are not schema languages; `cpp` is |
| SubmissionModel.SubmissionStore.Save | Day05/src/models/submission.js:4-72 | a valid record is written under its id; an invalid one raises a validation fault naming the failing paths, and nothing is written |
| UserProblem.FindAfterAppend | Day05/src/controllers/userProblem.js:51-54 | after a problem is stored under a new id, that id finds it and every other id finds what it found before |
| UserProblem.FindAfterReplace | Day05/src/controllers/userProblem.js:116 | after an update, the id finds the new problem if it was present, and nothing else changes |
| UserProblem.FindAfterRemove | Day05/src/controllers/userProblem.js:136 | after a delete, the id finds nothing and every other id is unaffected |
| UserProblem.RemoveKeepsUnique | Day05/src/controllers/userProblem.js:136 | deleting keeps ids unique and only removes entries |
| UserProblem.ProblemStore.Insert | Day05/src/controllers/userProblem.js:51-54 | the problem is appended under the fresh id and found there; all other lookups are unchanged |
| UserProblem.ProblemStore.Replace | Day05/src/controllers/userProblem.js:116 | the problem is replaced in place and returned, or null is returned when the id is unknown |
| UserProblem.ProblemStore.Remove | Day05/src/controllers/userProblem.js:136 | the problem is removed and returned, or null is returned when the id is unknown |
| UserProblem.AllTokens | Day05/src/controllers/userProblem.js:35 | the reference check keeps all tokens, one per batch entry, missing ones included (this contract is the definition) |
| UserProblem.GateMeaning | Day05/src/controllers/userProblem.js:17-47 | the gate passes exactly when every reference solution passes, and otherwise reports the first one that did not |
| UserProblem.FirstFailingAt | Day05/src/controllers/userProblem.js:17-47 | the first failing reference solution is uniquely determined by its position |
| UserProblem.CheckReferences | Day05/src/controllers/userProblem.js:83-113 | the nested loops compute the gate; they send one batch per solution tried, stopping after the first failure; each batch has one request per visible case with that solution's code; hidden cases are never sent |
| UserProblem.CreateProblem | Day05/src/controllers/userProblem.js:5-62 | the problem is stored, with the requester as its creator whatever the body says, exactly when the gate passes (201); otherwise the answer is 400 "Error Occured" or 400 with the fault, and nothing is stored |
| UserProblem.UpdateProblem | Day05/src/controllers/userProblem.js:64-126 | a missing id gives 400 and an unknown id gives 404, both before any judge call; otherwise the problem is replaced by the complete body exactly when the gate passes (200 with the body; the merge of a partial body is left out), and otherwise the answer is 400 "Error Occured" or 500 with the fault |
| UserProblem.DeleteProblem | Day05/src/controllers/userProblem.js:128-146 | a missing id gives 400; otherwise the problem is removed, with 404 "Problem is Missing" when there was none and 200 otherwise |
| UserProblem.GetAllProblem | Day05/src/controllers/userProblem.js:167-184 | 404 exactly when the collection is empty; otherwise 200 with one summary per problem, in order, carrying its id and title |
| UserProblem.SummariesFaithful | Day05/src/controllers/userProblem.js:170 | summary i is the id, title, difficulty and tags of problem i |
| UserSubmission.ResolveLanguage | Day05/src/controllers/userSubmission.js:39-61 | the alias loop returns `Resolve`'s id: the table entry for the name, else for the lower-cased name, else for the first alias in list order that resolves |
| UserSubmission.ResolveAccepts | Day05/src/controllers/userSubmission.js:39-61 | a language resolves exactly when its lower-cased form is one of the five table names or `cpp`, `js`, `py`, and every id it gives is a table id |
| UserSubmission.ResolveCppSpellings | Day05/src/controllers/userSubmission.js:39-61 | `C++`, `c++`, `cpp` and `CPP` all give 54 |
| UserSubmission.ResolveShortAliases | Day05/src/controllers/userSubmission.js:48-49 | `py` and `PY` give 71, `js` gives 63 |
| UserSubmission.ResolveRejectsInnerAliases | Day05/src/controllers/userSubmission.js:43-60 | `python3`, `nodejs` and `cpp17`, which appear only inside alias lists, do not resolve |
| UserSubmission.ResolveTableNames | Day05/src/controllers/userSubmission.js:39 | the table names resolve directly to their own ids |
| UserSubmission.SchemaLanguagesResolve | Day05/src/controllers/userSubmission.js:39-61 | every language the Submission schema admits resolves |
| UserSubmission.TruthyTokensMeaning | Day05/src/controllers/userSubmission.js:94 | the filter keeps every present non-empty token and nothing else; it is empty exactly when no entry has one, and when all entries have one it keeps them all in order |
| UserSubmission.TruthyTokensCounts | Day05/src/controllers/userSubmission.js:94 | every non-empty token is kept as many times as the batch reply's entries carry it, and the empty token never is |
| UserSubmission.AggregateResults | Day05/src/controllers/userSubmission.js:101-122 | the loop's accumulators equal the tally: the accepted count, the sum of their times, the peak memory, and the kind and stderr of the last failure |
| UserSubmission.PassedCount | Day05/src/controllers/userSubmission.js:106-111 | the pass count is at most the number of results; it equals it exactly when every result was accepted, which is exactly when no failure is reported |
| UserSubmission.LastFailureIsLast | Day05/src/controllers/userSubmission.js:112-121 | the reported failure is a non-accepted result after which every result was accepted |
| UserSubmission.LastFailureAt | Day05/src/controllers/userSubmission.js:112-121 | a non-accepted result followed only by accepted ones is the reported failure |
| UserSubmission.PeakMemoryIsMax | Day05/src/controllers/userSubmission.js:110 | the memory is at least that of every accepted result, and is 0 or one of them |
| UserSubmission.RuntimeAdds | Day05/src/controllers/userSubmission.js:109 | the runtime of a concatenation is the sum of the runtimes of its parts |
| UserSubmission.LastFailureWins | Day05/src/controllers/userSubmission.js:101-122 | a runtime error followed by a wrong answer is reported as a wrong answer with the later stderr, and accepted cases after a failure still count |
| UserSubmission.JudgedRecordValidity | Day05/src/controllers/userSubmission.js:112-132 | a judged record built on a valid one is valid exactly when the names are corrected or the verdict is not a wrong answer; when it is invalid, only `status` fails; it is `accepted` exactly when every result was accepted |
| UserSubmission.WrongAnswerSaveFailsAsWritten | Day05/src/controllers/userSubmission.js:118 | as written, a record whose last failure is not a runtime error fails validation at `status` alone |
| UserSubmission.CreditMeaning | Day05/src/controllers/userSubmission.js:138-153 | after crediting, the list exists and holds the problem id exactly once if it was absent, with no copy added if present; earlier entries keep their places; a migration removes the misspelled field |
| UserSubmission.CreditIdempotent | Day05/src/controllers/userSubmission.js:149-153 | crediting the same problem twice equals crediting it once |
| UserSubmission.UserDoc.CreditSolved | Day05/src/controllers/userSubmission.js:138-151 | the in-place migration and push leave exactly the credited fields |
| UserSubmission.CallJudgeOnce | Day05/src/controllers/userSubmission.js:89-98 | the batch, token and poll steps give `CallJudge`'s result: 502 for a non-array or empty reply or no tokens, 500 for a thrown poll, otherwise the finished results |
| UserSubmission.SubmitCode | Day05/src/controllers/userSubmission.js:5-161 | the answer, the requests sent, the submission collection and the user's solved fields after the handler are those of `SubmitSpec` for the given status names (`AsWritten` being the handler) |
| UserSubmission.Evaluate | Day05/src/controllers/userSubmission.js:39-132 | after the pending record is stored, the rest of the handler gives `JudgeFlow`'s answer, requests, record and credit for the given status names |
| UserSubmission.JudgeAndRecord | Day05/src/controllers/userSubmission.js:82-153 | with the language resolved and hidden cases present, the requests, judge exchange, save and credit give `JudgedFlow`'s answer, requests, stored record and solved fields; a failed exchange or a rejected save leaves the pending record and credits nothing |
| UserSubmission.SaveAndAnswer | Day05/src/controllers/userSubmission.js:132 | the record is saved and the answer sent when it is valid; otherwise 500 with the validation fault and the stored record unchanged |
| UserSubmission.CreateValidation | Day05/src/controllers/userSubmission.js:27-34 | a record is created exactly when the language is a schema language; otherwise the answer is 500 with a validation error at `language`, with nothing stored, sent or credited |
| UserSubmission.InvalidLanguageUnreachable | Day05/src/controllers/userSubmission.js:64-69 | `submitCode` never answers 400 "Invalid language" |
| UserSubmission.StoredRecordInvariant | Day05/src/controllers/userSubmission.js:24-153 | a stored submission belongs to the request, counts the hidden cases and is valid; it stays `pending` exactly when there were hidden cases and either the judge exchange did not complete or, as written, the verdict was a wrong answer |
| UserSubmission.SaveFailsOnlyOnWrongAnswer | Day05/src/controllers/userSubmission.js:112-132 | once the create succeeded, the answer is a validation failure exactly when, as written, the judge returned a wrong answer for present hidden cases; it is then 500 with a failure at `status` |
| UserSubmission.CreditedIffJudged | Day05/src/controllers/userSubmission.js:132-153 | the user is credited exactly when the record was created, there are hidden cases, the judge returned results and the judged record's save was not rejected; under the corrected names that is whatever the verdict, as written it excludes a wrong answer |
| UserSubmission.NoHiddenCases | Day05/src/controllers/userSubmission.js:72-80 | no hidden cases gives 201 with an accepted record that passed 0 of 0 cases, with runtime 0, memory 0 and no error message, no judge call and no credit |
| UserSubmission.JudgedSubmission | Day05/src/controllers/userSubmission.js:82-132 | the requests carry the hidden cases in order with the code and resolved id; the answer is 201 with the stored record unless its save was rejected, and then 500 at `status`; the stored record is accepted exactly when every result was; the pass count is at most the number of results; with one result per case, accepted means passed equals total |
| UserSubmission.WrongAnswerLostAsWritten | Day05/src/controllers/userSubmission.js:112-160 | as written, a judged wrong answer is answered 500 with a validation failure at `status`, the pending record stays stored and the user is not credited |
| UserSubmission.WrongAnswerRecordedWhenCorrected | Day05/src/controllers/userSubmission.js:112-153 | with the enumeration's name, the same wrong answer is stored as a valid `wrong_answer` record, answered 201 and credited |
| UserSubmission.JudgeFailureLeavesPending | Day05/src/controllers/userSubmission.js:89-98 | a failed judge exchange leaves the pending record stored, credits nothing and forwards the exchange's answer |
| UserSubmission.SampleSubmissionRequests | Day05/testing.js:18-27 | for the sample problem, a Python submission sends exactly the two hidden cases with language 71 |
| UserSubmission.RunCode | Day05/src/controllers/userSubmission.js:166-278 | the answer and the requests sent are those of `RunSpec`, the `runCode` specification, and no state changes |
| UserSubmission.RunNeverRecords | Day05/src/controllers/userSubmission.js:166-183 | `runCode` stores and credits nothing, and answers a missing field or an unknown problem exactly as `submitCode` does |
| UserSubmission.RunReferenceError | Day05/src/controllers/userSubmission.js:226-242 | an unresolvable language or no visible cases gives 500, from the undeclared `submittedResult`, with no judge call |
| UserSubmission.AliasRuns | Day05/src/controllers/userSubmission.js:201-223 | `py` runs the visible cases with language 71 |
| UserSubmission.AliasCannotBeSubmitted | Day05/src/controllers/userSubmission.js:27-34 | the same `py` submission is refused by validation before the judge is called |
| ProblemPage.GetStarterCode | Frontend/src/pages/ProblemPage.jsx:85-93 | the starter code is never empty |
| ProblemPage.FindStartCodeIsFirst | Frontend/src/pages/ProblemPage.jsx:87-89 | the entry found is the first whose language matches case-insensitively, and none is found exactly when no entry matches |
| ProblemPage.GetStarterCodeCases | Frontend/src/pages/ProblemPage.jsx:92 | the result is the first match's code when that is non-empty; otherwise the template for the exact language name, else the JavaScript template (this restates the fallback chain; `OwnStarterCodeWins` and `GetStarterCode` state its consequences) |
| ProblemPage.OwnStarterCodeWins | Frontend/src/pages/ProblemPage.jsx:87-92 | a problem's own non-empty code wins whatever the case of either name |
| ProblemPage.EmptyCodeByLength | Frontend/src/pages/ProblemPage.jsx:269-270 | code shorter than 20 once trimmed is always empty; for a language without patterns that is the only way |
| ProblemPage.SolveSignatureCountsAsEmpty | Frontend/src/pages/ProblemPage.jsx:261-270 | JavaScript code with `function solve`, Python code with `def solve`, and code in any of the other languages with `// Your code here` counts as empty |
| ProblemPage.TemplatesCountAsEmpty | Frontend/src/pages/ProblemPage.jsx:27-56 | every built-in template is empty code in its own language |
| ProblemPage.GuardBlocksIff | Frontend/src/pages/ProblemPage.jsx:177-188 | with an editor, the request is refused with status `error` and the fixed message exactly when the trimmed text is empty code, and it is posted otherwise |
| ProblemPage.GuardPostsTrimmed | Frontend/src/pages/ProblemPage.jsx:190-194 | what is posted is the trimmed text with the selected language: at least 20 characters, no white space at the ends, no pattern of the language |
| ProblemPage.GuardRequests | Frontend/src/pages/ProblemPage.jsx:233-236 | a run posts to the run endpoint with the custom case only when it is non-empty; a submit posts to the submit endpoint without one |
| ProblemPage.TrimmedEmptyCodeIsBlocked | Frontend/src/pages/ProblemPage.jsx:223-231 | trimmed text that is empty code is refused |
| ProblemPage.TemplateIsTrimmed | Frontend/src/pages/ProblemPage.jsx:27-56 | no template starts or ends with white space |
| ProblemPage.TemplateIsBlocked | Frontend/src/pages/ProblemPage.jsx:85-93 | pressing run or submit on an untouched built-in template is refused in each of the five languages |
| ProblemPage.UnknownLanguageTemplatePasses | Frontend/src/pages/ProblemPage.jsx:92 | a language without a template opens the JavaScript template, which that language's empty-code check lets through |
| Homepage.FilteredMeaning | Frontend/src/pages/Homepage.jsx:47-53 | the filtered list is an order-preserving sub-list holding exactly the problems the three conditions accept, each as many times as in the problem list |
| Homepage.AllFiltersKeepEverything | Frontend/src/pages/Homepage.jsx:48-51 | with every filter at `all` the list is unchanged |
| Homepage.UnknownStatusShowsNothing | Frontend/src/pages/Homepage.jsx:50-51 | a status other than `all` and `solved` shows nothing |
| Homepage.SingleFilters | Frontend/src/pages/Homepage.jsx:48-51 | the difficulty filter alone keeps exactly the problems of that difficulty; `solved` alone keeps exactly the problems whose id is among the solved ones |
| Homepage.TagFilterCases | Frontend/src/pages/Homepage.jsx:49 | a tag list matches by membership and a tag string by substring; a problem without tags never matches |
| Homepage.FilterIdempotent | Frontend/src/pages/Homepage.jsx:47-53 | filtering the filtered list again changes nothing |
| Homepage.BadgeColorMeaning | Frontend/src/pages/Homepage.jsx:194-203 | success, warning and error exactly for easy, medium and hard in any case; neutral for everything else, falsy values included; the badge ignores case |
| Homepage.BadgeColorExamples | Frontend/src/pages/Homepage.jsx:197-200 | `Easy` gives success, `HARD` gives error, and empty or missing gives neutral |

## Left out

- The Judge0 HTTP calls (URLs, RapidAPI headers, `base64_encoded`, `wait`): they are foreign network
  I/O. The oracle `Exchange` stands in for their replies.
- The console logging of `submitBatch`: it is I/O.
- Timers and scheduling. `waiting(1000)` becomes a returned total wait, and the `await` points are
  sequential.
- Races between concurrent submits on the solved list's read-check-push: the model has no
  concurrency.
- `parseFloat(test.time)` and the float sum of runtimes: time is an already-parsed integer.
- The Problem schema and its validation. `Problem.create` and `findByIdAndUpdate` (with
  `runValidators`) never fail here, so the 400 and 500 catch paths for a rejected problem body
  are not modelled.
- Problem fields other than title, description, difficulty, tags, the test cases, the reference
  solutions and the creator.
- ObjectId casting: ids are strings. A malformed id, which makes `findById` throw a cast error
  (answered 500), is not modelled.
- The comparison `String(id) === String(problemId)` is string equality on the modelled ids.
- The `Array.isArray` fallbacks on the problem's test-case fields, and a missing or non-iterable
  reference-solution list: the model's problems always carry lists.
- Lower-casing is ASCII only. JavaScript's `toLowerCase` is full Unicode, which matters for no
  table key.
- `String(language)` on a non-string language: languages are strings.
- Lengths count Unicode scalar values, not UTF-16 code units.
- Object-prototype keys such as `constructor` in the template, pattern and alias tables are not
  modelled.
- ProblemUtility.LanguageIdTable: "nothing for any other name" holds for the model's table only. The
  source indexes a plain object, so `constructor`, `__proto__` and the other inherited names (in
  any case) give a truthy inherited value. Those names are not modelled as keys.
- LegacyProblemUtility.LegacyLanguageIdTable: the same inherited-name gap as the Day05 table.
- UserSubmission.ResolveAccepts: "resolves exactly when" holds for the model's tables only. In the
  source, an inherited name such as `constructor` resolves and is sent to the judge, while in the
  model it does not resolve, so `runCode` answers 500.
- The response text of a thrown error (`"Internal server error: " + err`): the model keeps the
  prefix and a `Fault` value instead of the rendered string.
- Timestamps and indexes of the Submission schema.
- UserSubmission.UserDoc.CreditSolved: models the in-memory user document. `req.result.save()`
  runs only when the id is appended, so a migration without an append is not persisted. The
  model does not show that difference.
- UserProblem.CheckReferences: requires one oracle exchange per reference solution
  (`|judge| == |refs|`). This is how the judge is supplied, not a demand of the source.
- The same requirement applies to UserProblem.CreateProblem and UserProblem.UpdateProblem.
- UserProblem.UpdateProblem: the body is a complete `Problem`, which replaces the stored one and
  is returned. The source's `findByIdAndUpdate` sets only the fields the body carries, keeps the
  stored values of the fields it omits and returns the merged document. A partial body is not
  modelled, and neither is that merge.
- `getProblemById`, authentication, route wiring, the unfinished Day04 problem controller, the
  admin panel, signup and login forms, and all rendering, React state and data fetching of the
  two pages: they are outside the modelled core. The Day04 `submitBatch` is the same as Day05's
  `SubmitBatch`.
- The page's handling of a server error after the request is posted (`Runtime Error`,
  `Submission Failed`): it depends only on the server's reply.
- `runCode` receives `customTestCase` but never reads it, so the model does not carry it to the
  server.

## Findings

| source | as written | input that shows it | evidently intended | confidence | as-written member | corrected member |
|---|---|---|---|---|---|---|
| Day05/src/controllers/userSubmission.js:118 | a failed case other than a runtime error sets the status `wrong`, which is not in the schema's status enumeration, so the final `save` throws: the handler answers 500, the record stays `pending` and the user is not credited | a submission to a problem with two hidden cases judged `status_id` 4 then 6, or with one hidden case judged 6 | the enumeration's `wrong_answer`, so that the judged record is saved and returned with 201 | high, not executed | UserSubmission.WrongAnswerLostAsWritten | UserSubmission.WrongAnswerRecordedWhenCorrected |

The handler members `SubmitCode`, `Evaluate` and `JudgeAndRecord` and the specification
`SubmitSpec` take the status names as a parameter. With `AsWritten` they are the handler as
written. With `Corrected` they are the intended handler, and every handler lemma holds for both.
At the record level, `UserSubmission.WrongAnswerSaveFailsAsWritten` shows the source's record
failing validation at `status`, and `UserSubmission.JudgedRecordValidity` states validity under
both namings.
