/**
 * The problem controller of the Day05 backend: a problem is stored or updated only after every
 * reference solution has passed every visible test case on the judge.
 */
module UserProblem {
  import opened Base
  import opened ProblemUtility
  import opened Responses

  /** A reference solution: a language name and a complete program. */
  datatype ReferenceSolution = ReferenceSolution(language: string, completeCode: string)

  /**
   * A problem as the controllers see it. Title, description, difficulty and tags are carried
   * through unread; starter code is not modelled.
   */
  datatype Problem = Problem(
    title: string,
    description: string,
    difficulty: string,
    tags: string,
    visible: seq<TestCase>,
    hidden: seq<TestCase>,
    references: seq<ReferenceSolution>,
    creator: string)

  /** The projection `getAllProblem` selects: `_id title difficulty tags`. */
  datatype Summary = Summary(id: string, title: string, difficulty: string, tags: string)

  datatype StoredProblem = StoredProblem(id: string, problem: Problem)

  /** What a problem handler sends besides plain text: one problem, or the problem list. */
  datatype ProblemBody = One(problem: Problem) | Many(summaries: seq<Summary>)

  // ---------------------------------------------------------------- the problem collection

  predicate UniqueIds(entries: seq<StoredProblem>) {
    forall i, j :: 0 <= i < j < |entries| ==> entries[i].id != entries[j].id
  }

  /** `findById`: the problem stored under `id`. */
  function Find(entries: seq<StoredProblem>, id: string): Option<Problem> {
    if entries == [] then None
    else if entries[0].id == id then Some(entries[0].problem)
    else Find(entries[1..], id)
  }

  /** The collection after `findByIdAndUpdate`: the problem under `id` replaced, in place. */
  function ReplaceIn(entries: seq<StoredProblem>, id: string, p: Problem): (r: seq<StoredProblem>)
    ensures |r| == |entries|
    ensures forall i :: 0 <= i < |r| ==> r[i].id == entries[i].id
  {
    if entries == [] then []
    else [if entries[0].id == id then StoredProblem(id, p) else entries[0]] + ReplaceIn(entries[1..], id, p)
  }

  /** The collection after `findByIdAndDelete`: the problem under `id` removed, the order kept. */
  function RemoveFrom(entries: seq<StoredProblem>, id: string): (r: seq<StoredProblem>)
    ensures |r| <= |entries|
  {
    if entries == [] then []
    else (if entries[0].id == id then [] else [entries[0]]) + RemoveFrom(entries[1..], id)
  }

  function Summaries(entries: seq<StoredProblem>): (r: seq<Summary>)
    ensures |r| == |entries|
  {
    if entries == [] then []
    else var p := entries[0].problem;
      [Summary(entries[0].id, p.title, p.difficulty, p.tags)] + Summaries(entries[1..])
  }

  /** After appending a problem under a new id, that id finds it and every other id finds what it did before. */
  lemma {:induction false} FindAfterAppend(entries: seq<StoredProblem>, id: string, p: Problem, x: string)
    requires Find(entries, id).None?
    ensures Find(entries + [StoredProblem(id, p)], x) == if x == id then Some(p) else Find(entries, x)
  {
    if entries != [] {
      assert (entries + [StoredProblem(id, p)])[1..] == entries[1..] + [StoredProblem(id, p)];
      FindAfterAppend(entries[1..], id, p, x);
    }
  }

  /** After a replacement the id finds the new problem when it was present, and nothing else changes. */
  lemma {:induction false} FindAfterReplace(entries: seq<StoredProblem>, id: string, p: Problem, x: string)
    ensures Find(ReplaceIn(entries, id, p), x) ==
      if x == id && Find(entries, id).Some? then Some(p) else Find(entries, x)
  {
    if entries != [] {
      FindAfterReplace(entries[1..], id, p, x);
    }
  }

  /** After a removal the id finds nothing, and every other id finds what it did before. */
  lemma {:induction false} FindAfterRemove(entries: seq<StoredProblem>, id: string, x: string)
    ensures Find(RemoveFrom(entries, id), x) == if x == id then None else Find(entries, x)
  {
    if entries != [] {
      FindAfterRemove(entries[1..], id, x);
      if entries[0].id != id {
        assert RemoveFrom(entries, id) == [entries[0]] + RemoveFrom(entries[1..], id);
      } else {
        assert RemoveFrom(entries, id) == RemoveFrom(entries[1..], id);
      }
    }
  }

  /** Removing keeps ids unique, and every remaining entry was there before. */
  lemma {:induction false} RemoveKeepsUnique(entries: seq<StoredProblem>, id: string)
    requires UniqueIds(entries)
    ensures UniqueIds(RemoveFrom(entries, id))
    ensures forall e :: e in RemoveFrom(entries, id) ==> e in entries && e.id != id
  {
    if entries != [] {
      RemoveKeepsUnique(entries[1..], id);
      var rest := RemoveFrom(entries[1..], id);
      assert forall e :: e in rest ==> e.id != entries[0].id by {
        forall e | e in rest ensures e.id != entries[0].id {
          var k :| 0 <= k < |entries[1..]| && entries[1..][k] == e;
          assert entries[k + 1] == e;
        }
      }
    }
  }

  lemma {:induction false} FindAbsent(entries: seq<StoredProblem>, id: string)
    requires forall i :: 0 <= i < |entries| ==> entries[i].id != id
    ensures Find(entries, id).None?
  {
    if entries != [] {
      FindAbsent(entries[1..], id);
    }
  }

  /** The in-memory stand-in for the problem collection. */
  class ProblemStore {
    var entries: seq<StoredProblem>

    ghost predicate Valid()
      reads this
    {
      UniqueIds(entries)
    }

    function FindById(id: string): Option<Problem>
      reads this
    {
      Find(entries, id)
    }

    constructor ()
      ensures Valid() && entries == []
    {
      entries := [];
    }

    /** `Problem.create` under a fresh id. */
    method Insert(id: string, p: Problem)
      requires Valid() && FindById(id).None?
      modifies this
      ensures Valid()
      ensures entries == old(entries) + [StoredProblem(id, p)]
      ensures forall x :: FindById(x) == if x == id then Some(p) else old(FindById(x))
    {
      NotFoundMeansAbsent(entries, id);
      forall x ensures Find(entries + [StoredProblem(id, p)], x) == if x == id then Some(p) else Find(entries, x) {
        FindAfterAppend(entries, id, p, x);
      }
      entries := entries + [StoredProblem(id, p)];
    }

    /** `findByIdAndUpdate`: replaces the problem under `id` and returns it, or null when there is none. */
    method Replace(id: string, p: Problem) returns (updated: Option<Problem>)
      requires Valid()
      modifies this
      ensures Valid()
      ensures entries == ReplaceIn(old(entries), id, p)
      ensures updated == if old(FindById(id)).Some? then Some(p) else None
      ensures forall x :: FindById(x) == if x == id && old(FindById(id)).Some? then Some(p) else old(FindById(x))
    {
      updated := if Find(entries, id).Some? then Some(p) else None;
      forall x ensures Find(ReplaceIn(entries, id, p), x) ==
        if x == id && Find(entries, id).Some? then Some(p) else Find(entries, x) {
        FindAfterReplace(entries, id, p, x);
      }
      entries := ReplaceIn(entries, id, p);
    }

    /** `findByIdAndDelete`: removes the problem under `id` and returns it, or null when there is none. */
    method Remove(id: string) returns (deleted: Option<Problem>)
      requires Valid()
      modifies this
      ensures Valid()
      ensures entries == RemoveFrom(old(entries), id)
      ensures deleted == old(FindById(id))
      ensures forall x :: FindById(x) == if x == id then None else old(FindById(x))
    {
      deleted := Find(entries, id);
      RemoveKeepsUnique(entries, id);
      forall x ensures Find(RemoveFrom(entries, id), x) == if x == id then None else Find(entries, x) {
        FindAfterRemove(entries, id, x);
      }
      entries := RemoveFrom(entries, id);
    }
  }

  /** An id that `Find` misses appears in no entry. */
  lemma {:induction false} NotFoundMeansAbsent(entries: seq<StoredProblem>, id: string)
    requires Find(entries, id).None?
    ensures forall i :: 0 <= i < |entries| ==> entries[i].id != id
  {
    if entries != [] {
      NotFoundMeansAbsent(entries[1..], id);
      assert forall i :: 1 <= i < |entries| ==> entries[i] == entries[1..][i - 1];
    }
  }

  // ---------------------------------------------------------------- the reference-solution gate

  /** How the check of one reference solution ended. */
  datatype Check = Passed | Rejected | CheckThrew(fault: Fault) | CheckPolling

  /** `value.token` as `join` renders it: a missing token becomes the empty string. */
  function TokenText(e: BatchEntry): string {
    if e.token.Some? then e.token.value else ""
  }

  /** `submitResult.map((value) => value.token)`; here tokens are not filtered. */
  function AllTokens(entries: seq<BatchEntry>): (r: seq<string>)
    ensures |r| == |entries|
    ensures forall i :: 0 <= i < |entries| ==> r[i] == TokenText(entries[i])
  {
    seq(|entries|, i requires 0 <= i < |entries| => TokenText(entries[i]))
  }

  predicate AllAccepted(results: seq<JudgeResult>) {
    forall i :: 0 <= i < |results| ==> results[i].statusId == Accepted
  }

  /**
   * The verdict on one reference solution, given what the judge answers: the poll result must
   * have every case accepted. A batch reply that is not an array makes `submitResult.map` throw.
   */
  function CheckReference(ex: Exchange): Check {
    match SubmitBatch(ex.batch)
    case NotArray => CheckThrew(NotCallable("submitResult.map"))
    case Entries(_) =>
      match Settle(ex.polls)
      case Threw(e) => CheckThrew(Thrown(e))
      case Polling => CheckPolling
      case Finished(results) => if AllAccepted(results) then Passed else Rejected
  }

  /** Index of the first reference solution whose check did not pass, or the number of solutions. */
  function FirstFailing(judge: seq<Exchange>): (k: nat)
    ensures k <= |judge|
  {
    if judge == [] then 0
    else if !CheckReference(judge[0]).Passed? then 0
    else 1 + FirstFailing(judge[1..])
  }

  /** The result of checking every reference solution in order, stopping at the first that does not pass. */
  function Gate(judge: seq<Exchange>): Check {
    var k := FirstFailing(judge);
    if k == |judge| then Passed else CheckReference(judge[k])
  }

  /** The index is determined: a position with only passing checks before it and a failing one at it. */
  lemma {:induction false} FirstFailingAt(judge: seq<Exchange>, i: nat)
    requires i <= |judge|
    requires forall j :: 0 <= j < i ==> CheckReference(judge[j]).Passed?
    requires i < |judge| ==> !CheckReference(judge[i]).Passed?
    ensures FirstFailing(judge) == i
  {
    if i > 0 {
      assert forall j :: 0 <= j < i - 1 ==> judge[1..][j] == judge[j + 1];
      FirstFailingAt(judge[1..], i - 1);
    }
  }

  /** The gate passes exactly when every reference solution passes; otherwise it reports the first failure. */
  lemma {:induction false} GateMeaning(judge: seq<Exchange>)
    ensures Gate(judge).Passed? <==> forall j :: 0 <= j < |judge| ==> CheckReference(judge[j]).Passed?
    ensures !Gate(judge).Passed? ==>
      exists k :: 0 <= k < |judge| && Gate(judge) == CheckReference(judge[k])
                  && forall j :: 0 <= j < k ==> CheckReference(judge[j]).Passed?
  {
    if judge != [] && CheckReference(judge[0]).Passed? {
      GateMeaning(judge[1..]);
      assert forall j :: 1 <= j < |judge| ==> judge[j] == judge[1..][j - 1];
      if !Gate(judge).Passed? {
        var k :| 0 <= k < |judge[1..]| && Gate(judge[1..]) == CheckReference(judge[1..][k])
                 && forall j :: 0 <= j < k ==> CheckReference(judge[1..][j]).Passed?;
        assert Gate(judge) == CheckReference(judge[k + 1]);
      }
    }
  }

  /**
   * The loop of `createProblem` and `updateProblem`: for each reference solution, one request per
   * visible case, one batch, one poll loop, and a rejection at the first result not accepted.
   * Returns the verdict and the batch of requests sent for each solution that was tried.
   */
  method CheckReferences(refs: seq<ReferenceSolution>, visible: seq<TestCase>, judge: seq<Exchange>)
    returns (check: Check, sent: seq<seq<Request>>)
    requires |judge| == |refs|
    ensures check == Gate(judge)
    ensures |sent| == if check.Passed? then |refs| else FirstFailing(judge) + 1
    ensures |sent| <= |refs|
    ensures forall j :: 0 <= j < |sent| ==>
      sent[j] == BuildRequests(refs[j].completeCode, LanguageId(refs[j].language), visible)
  {
    sent := [];
    var i := 0;
    while i < |refs|
      invariant 0 <= i <= |refs|
      invariant forall j :: 0 <= j < i ==> CheckReference(judge[j]).Passed?
      invariant |sent| == i
      invariant forall j :: 0 <= j < i ==>
        sent[j] == BuildRequests(refs[j].completeCode, LanguageId(refs[j].language), visible)
    {
      var languageId := LanguageId(refs[i].language);
      var submissions := BuildRequests(refs[i].completeCode, languageId, visible);
      sent := sent + [submissions];
      var reply := SubmitBatch(judge[i].batch);
      if reply.NotArray? {
        FirstFailingAt(judge, i);
        return CheckThrew(NotCallable("submitResult.map")), sent;
      }
      var resultToken := AllTokens(reply.entries);
      var poll, _, _ := AwaitCompletion(resultToken, judge[i].polls);
      if poll.Threw? {
        FirstFailingAt(judge, i);
        return CheckThrew(Thrown(poll.error)), sent;
      }
      if poll.Polling? {
        FirstFailingAt(judge, i);
        return CheckPolling, sent;
      }
      var testResult := poll.results;
      var j := 0;
      while j < |testResult|
        invariant 0 <= j <= |testResult|
        invariant forall k :: 0 <= k < j ==> testResult[k].statusId == Accepted
      {
        if testResult[j].statusId != Accepted {
          FirstFailingAt(judge, i);
          return Rejected, sent;
        }
        j := j + 1;
      }
      i := i + 1;
    }
    FirstFailingAt(judge, i);
    check := Passed;
  }

  // ---------------------------------------------------------------- the handlers

  /** What `createProblem` answers for a gate verdict; its `catch` answers 400. */
  function CreateOutcome(check: Check): Outcome<ProblemBody> {
    match check
    case Passed => Says(201, "Problem Saved Successfully")
    case Rejected => Says(400, "Error Occured")
    case CheckThrew(f) => Fails(400, "Error: ", f)
    case CheckPolling => StillPolling
  }

  /**
   * `createProblem`: the problem is stored, with the requester as its creator whatever the body
   * says, only when every reference solution passed every visible case.
   */
  method CreateProblem(store: ProblemStore, body: Problem, requesterId: string, freshId: string, judge: seq<Exchange>)
    returns (out: Outcome<ProblemBody>, sent: seq<seq<Request>>)
    requires store.Valid() && store.FindById(freshId).None?
    requires |judge| == |body.references|
    modifies store
    ensures store.Valid()
    ensures out == CreateOutcome(Gate(judge))
    ensures store.entries == if Gate(judge).Passed?
      then old(store.entries) + [StoredProblem(freshId, body.(creator := requesterId))]
      else old(store.entries)
    ensures |sent| <= |body.references|
    ensures forall j :: 0 <= j < |sent| ==>
      sent[j] == BuildRequests(body.references[j].completeCode, LanguageId(body.references[j].language), body.visible)
  {
    var check;
    check, sent := CheckReferences(body.references, body.visible, judge);
    out := CreateOutcome(check);
    if check.Passed? {
      store.Insert(freshId, body.(creator := requesterId));
    }
  }

  /**
   * `updateProblem`: a missing id is refused and an unknown one answers 404 before the judge is
   * called; after the same gate passes, the body is written over the stored problem and returned.
   * The body here is a complete problem, its creator included, so every stored field is replaced.
   * Its `catch` answers 500.
   */
  method UpdateProblem(store: ProblemStore, id: string, body: Problem, judge: seq<Exchange>)
    returns (out: Outcome<ProblemBody>, sent: seq<seq<Request>>)
    requires store.Valid()
    requires |judge| == |body.references|
    modifies store
    ensures store.Valid()
    ensures id == "" ==> out == Says(400, "Missing Id Field") && sent == [] && store.entries == old(store.entries)
    ensures id != "" && old(store.FindById(id)).None? ==>
      out == Says(404, "ID is not present in server") && sent == [] && store.entries == old(store.entries)
    ensures id != "" && old(store.FindById(id)).Some? ==>
      && (out == match Gate(judge)
                 case Passed => Sends(200, One(body))
                 case Rejected => Says(400, "Error Occured")
                 case CheckThrew(f) => Fails(500, "Error: ", f)
                 case CheckPolling => StillPolling)
      && store.entries == (if Gate(judge).Passed? then ReplaceIn(old(store.entries), id, body) else old(store.entries))
      && |sent| <= |body.references|
      && forall j :: 0 <= j < |sent| ==>
           sent[j] == BuildRequests(body.references[j].completeCode, LanguageId(body.references[j].language), body.visible)
  {
    sent := [];
    if id == "" {
      return Says(400, "Missing Id Field"), sent;
    }
    var found := store.FindById(id);
    if found.None? {
      return Says(404, "ID is not present in server"), sent;
    }
    var check;
    check, sent := CheckReferences(body.references, body.visible, judge);
    match check {
      case Passed =>
        var updated := store.Replace(id, body);
        out := Sends(200, One(updated.value));
      case Rejected => out := Says(400, "Error Occured");
      case CheckThrew(f) => out := Fails(500, "Error: ", f);
      case CheckPolling => out := StillPolling;
    }
  }

  /** `deleteProblem`: 400 for a missing id, 404 when nothing was deleted, 200 otherwise. */
  method DeleteProblem(store: ProblemStore, id: string) returns (out: Outcome<ProblemBody>)
    requires store.Valid()
    modifies store
    ensures store.Valid()
    ensures id == "" ==> out == Says(400, "ID is missing") && store.entries == old(store.entries)
    ensures id != "" ==> store.entries == RemoveFrom(old(store.entries), id)
    ensures id != "" ==> out == if old(store.FindById(id)).None?
      then Says(404, "Problem is Missing") else Says(200, "Successfully Deleleted")
    ensures forall x :: id != "" ==> store.FindById(x) == if x == id then None else old(store.FindById(x))
  {
    if id == "" {
      return Says(400, "ID is missing");
    }
    var deleted := store.Remove(id);
    if deleted.None? {
      return Says(404, "Problem is Missing");
    }
    out := Says(200, "Successfully Deleleted");
  }

  /** `getAllProblem`: 404 for an empty collection, otherwise the summary of every problem, in order. */
  function GetAllProblem(store: ProblemStore): (out: Outcome<ProblemBody>)
    reads store
    ensures out == Says(404, "Problem is Missinng") <==> store.entries == []
    ensures store.entries != [] ==>
      out.Respond? && out.status == 200 && out.reply.Payload? && out.reply.body.Many?
      && |out.reply.body.summaries| == |store.entries|
      && forall i :: 0 <= i < |store.entries| ==>
           out.reply.body.summaries[i].id == store.entries[i].id
           && out.reply.body.summaries[i].title == store.entries[i].problem.title
  {
    if store.entries == [] then Says(404, "Problem is Missinng")
    else
      SummariesFaithful(store.entries);
      Sends(200, Many(Summaries(store.entries)))
  }

  lemma {:induction false} SummariesFaithful(entries: seq<StoredProblem>)
    ensures forall i :: 0 <= i < |entries| ==>
      Summaries(entries)[i] == Summary(entries[i].id, entries[i].problem.title, entries[i].problem.difficulty, entries[i].problem.tags)
  {
    if entries != [] {
      SummariesFaithful(entries[1..]);
      assert forall i :: 1 <= i < |entries| ==> Summaries(entries)[i] == Summaries(entries[1..])[i - 1];
    }
  }
}
