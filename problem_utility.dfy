/**
 * The judge client of the Day05 backend: the language table, the data exchanged with the
 * external judge, the batch submission that swallows transport errors, the combined token
 * parameter and the poll loop that waits until every case has finished.
 */
module ProblemUtility {
  import opened Base
  import opened Text

  /** The judge's ids for the five canonical language names. */
  const LanguageIds: map<string, int> :=
    map["c" := 50, "c++" := 54, "java" := 62, "javascript" := 63, "python" := 71]

  /** `getLanguageById`: the table entry for the lower-cased name, or undefined. */
  function LanguageId(lang: string): Option<int> {
    var key := ToLower(lang);
    if key in LanguageIds then Some(LanguageIds[key]) else None
  }

  /** The lookup maps exactly the five lower-cased names, each to its own id. */
  lemma LanguageIdTable(lang: string)
    ensures LanguageId(lang) == Some(50) <==> ToLower(lang) == "c"
    ensures LanguageId(lang) == Some(54) <==> ToLower(lang) == "c++"
    ensures LanguageId(lang) == Some(62) <==> ToLower(lang) == "java"
    ensures LanguageId(lang) == Some(63) <==> ToLower(lang) == "javascript"
    ensures LanguageId(lang) == Some(71) <==> ToLower(lang) == "python"
    ensures LanguageId(lang).None? <==>
      ToLower(lang) != "c" && ToLower(lang) != "c++" && ToLower(lang) != "java"
      && ToLower(lang) != "javascript" && ToLower(lang) != "python"
  {
  }

  /** Lower-casing the argument first never changes the answer. */
  lemma LanguageIdCaseInsensitive(lang: string)
    ensures LanguageId(lang) == LanguageId(ToLower(lang))
  {
    LowerOfLower(lang);
  }

  /** Common spellings outside the table are not resolved by the table itself. */
  lemma LanguageIdRejectsAliases()
    ensures LanguageId("cpp").None? && LanguageId("js").None? && LanguageId("py").None?
    ensures LanguageId("python3").None? && LanguageId("nodejs").None? && LanguageId("cpp17").None?
    ensures LanguageId("C++") == Some(54) && LanguageId("Python") == Some(71)
  {
    LookupLowerCase("cpp");
    LookupLowerCase("js");
    LookupLowerCase("py");
    LookupLowerCase("python3");
    LookupLowerCase("nodejs");
    LookupLowerCase("cpp17");
    assert ToLower("C++") == "c++";
    assert ToLower("Python") == "python";
  }

  /** A name without capitals is looked up as it is. */
  lemma LookupLowerCase(lang: string)
    requires NoUpper(lang)
    ensures LanguageId(lang) == if lang in LanguageIds then Some(LanguageIds[lang]) else None
  {
    LowerOfLower(lang);
  }

  // ---------------------------------------------------------------- data exchanged with the judge

  /** One test case of a problem: the program's input and the output it must print. */
  datatype TestCase = TestCase(input: string, output: string)

  /** One execution request; `languageId` is missing when the language was not found. */
  datatype Request = Request(sourceCode: string, languageId: Option<int>, stdin: string, expectedOutput: string)

  /** One judged case: its status, time (already parsed as a number), memory and stderr. */
  datatype JudgeResult = JudgeResult(statusId: int, time: int, memory: int, stderr: Option<string>)

  /** The judge's status for an accepted case and for a runtime error. */
  const Accepted := 3
  const RuntimeError := 4

  /** One entry of the batch reply, whose token may be missing. */
  datatype BatchEntry = BatchEntry(token: Option<string>)

  /** The body of the batch reply: an array of entries, or anything else (`undefined` included). */
  datatype BatchData = NotArray | Entries(entries: seq<BatchEntry>)

  /** What the batch POST produced: a body, or a failed request. */
  datatype Transport = Delivered(data: BatchData) | RequestFailed(error: string)

  /** What the judge does for one batch: the reply to the POST, then the reply to each poll. */
  datatype Exchange = Exchange(batch: Transport, polls: seq<PollReply>)

  /** The submissions built from code, a language id and test cases: one per case, in order. */
  function BuildRequests(code: string, languageId: Option<int>, cases: seq<TestCase>): (r: seq<Request>)
    ensures |r| == |cases|
  {
    if cases == [] then []
    else [Request(code, languageId, cases[0].input, cases[0].output)] + BuildRequests(code, languageId, cases[1..])
  }

  /** The test cases a batch of requests carries. */
  function CasesOf(requests: seq<Request>): (r: seq<TestCase>)
    ensures |r| == |requests|
  {
    if requests == [] then []
    else [TestCase(requests[0].stdin, requests[0].expectedOutput)] + CasesOf(requests[1..])
  }

  /**
   * Request building loses nothing: the requests give back exactly the test cases, in order,
   * and every request carries the same code and language id.
   */
  lemma {:induction false} BuildRequestsFaithful(code: string, languageId: Option<int>, cases: seq<TestCase>)
    ensures CasesOf(BuildRequests(code, languageId, cases)) == cases
    ensures forall i :: 0 <= i < |cases| ==>
      BuildRequests(code, languageId, cases)[i] == Request(code, languageId, cases[i].input, cases[i].output)
  {
    if cases != [] {
      BuildRequestsFaithful(code, languageId, cases[1..]);
      var r := BuildRequests(code, languageId, cases);
      var rest := BuildRequests(code, languageId, cases[1..]);
      assert r[1..] == rest;
      assert CasesOf(r) == [TestCase(r[0].stdin, r[0].expectedOutput)] + CasesOf(rest);
      assert cases == [cases[0]] + cases[1..];
      forall i | 1 <= i < |cases|
        ensures r[i] == Request(code, languageId, cases[i].input, cases[i].output)
      {
        assert r[i] == rest[i - 1] && cases[i] == cases[1..][i - 1];
      }
    }
  }

  /** `submitBatch`: a failed request is swallowed and yields `undefined`, never an exception. */
  function SubmitBatch(t: Transport): (r: BatchData)
    ensures t.RequestFailed? ==> r.NotArray?
    ensures t.Delivered? ==> r == t.data
  {
    match t
    case Delivered(data) => data
    case RequestFailed(_) => NotArray
  }

  // ---------------------------------------------------------------- the combined token parameter

  /** `tokens.join(sep)`. */
  function Join(tokens: seq<string>, sep: char): string {
    if |tokens| == 0 then ""
    else if |tokens| == 1 then tokens[0]
    else tokens[0] + [sep] + Join(tokens[1..], sep)
  }

  /** Position of the first `c` in `s`, or `|s|` when there is none. */
  function IndexOf(s: string, c: char): (k: nat)
    ensures k <= |s|
    ensures forall j :: 0 <= j < k ==> s[j] != c
    ensures k < |s| ==> s[k] == c
  {
    if s == [] then 0 else if s[0] == c then 0 else 1 + IndexOf(s[1..], c)
  }

  /** `s.split(sep)`, as the judge reads the `tokens` parameter. */
  function Split(s: string, sep: char): seq<string>
    decreases |s|
  {
    var k := IndexOf(s, sep);
    if k == |s| then [s] else [s[..k]] + Split(s[k + 1..], sep)
  }

  /** The `tokens` query parameter of a poll: all tokens in one comma-joined string. */
  function TokensParam(tokens: seq<string>): string {
    Join(tokens, ',')
  }

  /** One poll request carries every token: splitting the parameter gives the tokens back. */
  lemma {:induction false} TokensParamRoundTrip(tokens: seq<string>)
    requires |tokens| > 0
    requires forall t :: t in tokens ==> ',' !in t
    ensures Split(TokensParam(tokens), ',') == tokens
    decreases |tokens|
  {
    var s := TokensParam(tokens);
    var t0 := tokens[0];
    if |tokens| == 1 {
      assert forall j :: 0 <= j < |t0| ==> t0[j] in t0;
      assert IndexOf(s, ',') == |s|;
    } else {
      var rest := Join(tokens[1..], ',');
      assert s == t0 + [','] + rest;
      assert forall j :: 0 <= j < |t0| ==> s[j] == t0[j] && t0[j] in t0;
      assert s[|t0|] == ',';
      assert IndexOf(s, ',') == |t0|;
      assert s[..|t0|] == t0;
      assert s[|t0| + 1..] == rest;
      TokensParamRoundTrip(tokens[1..]);
      assert tokens == [t0] + tokens[1..];
    }
  }

  // ---------------------------------------------------------------- the poll loop

  /** What one poll of the batch status produced: the submissions list, or an error that was thrown. */
  datatype PollReply = Polled(submissions: seq<JudgeResult>) | PollThrew(error: string)

  /** The loop stops when every result is past the queued/processing states (`status_id > 2`). */
  predicate IsDone(submissions: seq<JudgeResult>) {
    forall i :: 0 <= i < |submissions| ==> submissions[i].statusId > 2
  }

  /** A reply that ends the loop: one that throws, or one whose results have all finished. */
  predicate Decisive(reply: PollReply) {
    reply.PollThrew? || IsDone(reply.submissions)
  }

  /** Index of the first reply that ends the loop, or the number of replies if none does. */
  function FirstDecisive(replies: seq<PollReply>): (k: nat)
    ensures k <= |replies|
  {
    if replies == [] then 0
    else if Decisive(replies[0]) then 0
    else 1 + FirstDecisive(replies[1..])
  }

  /** The first decisive reply really is the first: every earlier one is unfinished. */
  lemma {:induction false} FirstDecisiveIsFirst(replies: seq<PollReply>)
    ensures forall j :: 0 <= j < FirstDecisive(replies) ==> !Decisive(replies[j])
    ensures FirstDecisive(replies) < |replies| ==> Decisive(replies[FirstDecisive(replies)])
  {
    if replies != [] && !Decisive(replies[0]) {
      FirstDecisiveIsFirst(replies[1..]);
      assert forall j :: 1 <= j < |replies| ==> replies[j] == replies[1..][j - 1];
    }
  }

  /** The index is determined: a position with only unfinished replies before it and a decisive one at it. */
  lemma {:induction false} FirstDecisiveAt(replies: seq<PollReply>, i: nat)
    requires i <= |replies|
    requires forall j :: 0 <= j < i ==> !Decisive(replies[j])
    requires i < |replies| ==> Decisive(replies[i])
    ensures FirstDecisive(replies) == i
  {
    if i > 0 {
      assert forall j :: 0 <= j < i - 1 ==> replies[1..][j] == replies[j + 1];
      FirstDecisiveAt(replies[1..], i - 1);
    }
  }

  /** How the poll loop ends: the finished results, a thrown error, or not yet (the loop has no bound). */
  datatype PollOutcome = Finished(results: seq<JudgeResult>) | Threw(error: string) | Polling

  /** The outcome of `submitToken` for a sequence of poll replies. */
  function Settle(replies: seq<PollReply>): PollOutcome {
    var k := FirstDecisive(replies);
    if k == |replies| then Polling
    else match replies[k]
      case PollThrew(e) => Threw(e)
      case Polled(s) => Finished(s)
  }

  /**
   * The loop returns only finished results, exactly the list of the first reply in which every
   * case has finished; it keeps polling for as long as the judge keeps answering with unfinished cases.
   */
  lemma SettleMeaning(replies: seq<PollReply>)
    ensures Settle(replies).Finished? ==>
      IsDone(Settle(replies).results)
      && exists k :: 0 <= k < |replies| && replies[k] == Polled(Settle(replies).results)
                     && forall j :: 0 <= j < k ==> !Decisive(replies[j])
    ensures Settle(replies).Threw? ==>
      exists k :: 0 <= k < |replies| && replies[k] == PollThrew(Settle(replies).error)
                  && forall j :: 0 <= j < k ==> !Decisive(replies[j])
    ensures Settle(replies).Polling? <==> forall j :: 0 <= j < |replies| ==> !Decisive(replies[j])
  {
    FirstDecisiveIsFirst(replies);
  }

  /** Every status counts as done over an empty list, so an empty submissions list ends the loop. */
  lemma EmptyReplyIsDone(later: seq<PollReply>)
    ensures Settle([Polled([])] + later) == Finished([])
  {
    FirstDecisiveAt([Polled([])] + later, 0);
  }

  /** The wait between two polls, in milliseconds. */
  const PollIntervalMs := 1000

  /**
   * `submitToken`: poll with one request carrying every token until a reply has every case
   * finished. Returns the outcome, the `tokens` parameter of each poll sent, and the time spent
   * waiting (one interval after each unfinished reply).
   */
  method AwaitCompletion(tokens: seq<string>, replies: seq<PollReply>)
    returns (out: PollOutcome, polls: seq<string>, waitedMs: nat)
    ensures out == Settle(replies)
    ensures |polls| == if out.Polling? then |replies| else FirstDecisive(replies) + 1
    ensures forall j :: 0 <= j < |polls| ==> polls[j] == TokensParam(tokens)
    ensures waitedMs == PollIntervalMs * FirstDecisive(replies)
  {
    var i := 0;
    polls := [];
    waitedMs := 0;
    while i < |replies|
      invariant 0 <= i <= |replies|
      invariant forall j :: 0 <= j < i ==> !Decisive(replies[j])
      invariant |polls| == i && forall j :: 0 <= j < i ==> polls[j] == TokensParam(tokens)
      invariant waitedMs == PollIntervalMs * i
    {
      polls := polls + [TokensParam(tokens)];
      var reply := replies[i];
      if reply.PollThrew? {
        FirstDecisiveAt(replies, i);
        return Threw(reply.error), polls, waitedMs;
      }
      var isDone := IsDone(reply.submissions);
      if isDone {
        FirstDecisiveAt(replies, i);
        return Finished(reply.submissions), polls, waitedMs;
      }
      waitedMs := waitedMs + PollIntervalMs;
      i := i + 1;
    }
    FirstDecisiveAt(replies, i);
    out := Polling;
  }
}
