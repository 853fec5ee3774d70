/**
 * The pure helpers of the home page of the front end: the filter applied to the problem list
 * and the badge class chosen for a difficulty.
 */
module Homepage {
  import opened Base
  import opened Text

  /** A problem's `tags` as the list endpoint returns it: missing, a list of names, or one string. */
  datatype Tags = NoTags | TagList(items: seq<string>) | TagText(text: string)

  /** One entry of the problem list shown on the page. */
  datatype ProblemSummary = ProblemSummary(id: string, title: string, difficulty: string, tags: Tags)

  /** The three drop-down selections; each is `all` when unset. */
  datatype Filters = Filters(difficulty: string, tag: string, status: string)

  const AllFilters := Filters("all", "all", "all")

  /** `problem.tags?.includes(tag)`: list membership for a list, substring search for a string. */
  predicate TagMatches(tags: Tags, tag: string) {
    match tags
    case NoTags => false
    case TagList(items) => tag in items
    case TagText(text) => Contains(text, tag)
  }

  /** The predicate of `filteredProblems`; `solvedIds` are the ids of the problems the user solved. */
  predicate Keeps(problem: ProblemSummary, filters: Filters, solvedIds: seq<string>) {
    && (filters.difficulty == "all" || problem.difficulty == filters.difficulty)
    && (filters.tag == "all" || TagMatches(problem.tags, filters.tag))
    && (filters.status == "all" || (filters.status == "solved" && problem.id in solvedIds))
  }

  /** `problems.filter(...)`. */
  function FilteredProblems(problems: seq<ProblemSummary>, filters: Filters, solvedIds: seq<string>): seq<ProblemSummary> {
    if problems == [] then []
    else (if Keeps(problems[0], filters, solvedIds) then [problems[0]] else [])
         + FilteredProblems(problems[1..], filters, solvedIds)
  }

  /** `a` is obtained from `b` by deleting elements, keeping the order of the rest. */
  predicate IsSubsequence(a: seq<ProblemSummary>, b: seq<ProblemSummary>)
    decreases |b|
  {
    if a == [] then true
    else if b == [] then false
    else (a[0] == b[0] && IsSubsequence(a[1..], b[1..])) || IsSubsequence(a, b[1..])
  }

  /**
   * The filtered list keeps the order of the problem list and holds exactly the problems the
   * predicate accepts, each as many times as the problem list does.
   */
  lemma {:induction false} FilteredMeaning(problems: seq<ProblemSummary>, filters: Filters, solvedIds: seq<string>)
    ensures var r := FilteredProblems(problems, filters, solvedIds);
      && IsSubsequence(r, problems)
      && |r| <= |problems|
      && (forall p :: p in r <==> p in problems && Keeps(p, filters, solvedIds))
      && (forall p :: multiset(r)[p] == if Keeps(p, filters, solvedIds) then multiset(problems)[p] else 0)
  {
    if problems != [] {
      var rest := FilteredProblems(problems[1..], filters, solvedIds);
      FilteredMeaning(problems[1..], filters, solvedIds);
      assert problems == [problems[0]] + problems[1..];
      assert multiset(problems) == multiset{problems[0]} + multiset(problems[1..]);
      if Keeps(problems[0], filters, solvedIds) {
        var r := [problems[0]] + rest;
        assert r[0] == problems[0] && r[1..] == rest;
        assert multiset(r) == multiset{problems[0]} + multiset(rest);
      } else {
        assert FilteredProblems(problems, filters, solvedIds) == rest;
      }
    }
  }

  /** With every filter at `all` the list is shown unchanged. */
  lemma {:induction false} AllFiltersKeepEverything(problems: seq<ProblemSummary>, solvedIds: seq<string>)
    ensures FilteredProblems(problems, AllFilters, solvedIds) == problems
  {
    if problems != [] {
      AllFiltersKeepEverything(problems[1..], solvedIds);
    }
  }

  /** A status other than `all` and `solved` shows nothing. */
  lemma {:induction false} UnknownStatusShowsNothing(problems: seq<ProblemSummary>, filters: Filters, solvedIds: seq<string>)
    requires filters.status != "all" && filters.status != "solved"
    ensures FilteredProblems(problems, filters, solvedIds) == []
  {
    if problems != [] {
      UnknownStatusShowsNothing(problems[1..], filters, solvedIds);
    }
  }

  /**
   * The difficulty filter alone keeps exactly the problems of that difficulty, and the status
   * `solved` keeps only problems whose id is among the solved ones.
   */
  lemma SingleFilters(problems: seq<ProblemSummary>, difficulty: string, solvedIds: seq<string>)
    requires difficulty != "all"
    ensures forall p :: p in FilteredProblems(problems, Filters(difficulty, "all", "all"), solvedIds) <==>
      p in problems && p.difficulty == difficulty
    ensures forall p :: p in FilteredProblems(problems, Filters("all", "all", "solved"), solvedIds) <==>
      p in problems && p.id in solvedIds
  {
    FilteredMeaning(problems, Filters(difficulty, "all", "all"), solvedIds);
    FilteredMeaning(problems, Filters("all", "all", "solved"), solvedIds);
  }

  /** The tag filter tests list membership or a substring, and never matches a problem without tags. */
  lemma TagFilterCases(items: seq<string>, text: string, tag: string)
    requires tag != "all"
    ensures TagMatches(TagList(items), tag) <==> tag in items
    ensures TagMatches(TagText(text), tag) <==> exists i :: OccursAt(text, tag, i)
    ensures !TagMatches(NoTags, tag)
    ensures TagMatches(TagText("array, string"), "string") && !TagMatches(TagList(["array, string"]), "string")
  {
    ContainsIff(text, tag);
    ContainsBetween("array, ", "string", "");
    assert "array, " + "string" + "" == "array, string";
  }

  /** Filtering twice with the same selections changes nothing more. */
  lemma {:induction false} FilterIdempotent(problems: seq<ProblemSummary>, filters: Filters, solvedIds: seq<string>)
    ensures var r := FilteredProblems(problems, filters, solvedIds);
      FilteredProblems(r, filters, solvedIds) == r
  {
    if problems != [] {
      FilterIdempotent(problems[1..], filters, solvedIds);
      var rest := FilteredProblems(problems[1..], filters, solvedIds);
      if Keeps(problems[0], filters, solvedIds) {
        var r := [problems[0]] + rest;
        assert r[0] == problems[0] && r[1..] == rest;
        assert FilteredProblems(r, filters, solvedIds) == [problems[0]] + FilteredProblems(rest, filters, solvedIds);
      } else {
        assert FilteredProblems(problems, filters, solvedIds) == rest;
      }
    }
  }

  // ---------------------------------------------------------------- difficulty badge

  /** `getDifficultyBadgeColor`; `None` or the empty string is a falsy difficulty. */
  function DifficultyBadgeColor(difficulty: Option<string>): string {
    if difficulty.None? || difficulty.value == "" then "badge-neutral"
    else
      var key := ToLower(difficulty.value);
      if key == "easy" then "badge-success"
      else if key == "medium" then "badge-warning"
      else if key == "hard" then "badge-error"
      else "badge-neutral"
  }

  /**
   * The badge is `badge-success`, `badge-warning` or `badge-error` exactly for easy, medium and
   * hard in any case, and `badge-neutral` for everything else, the falsy values included.
   */
  lemma BadgeColorMeaning(difficulty: Option<string>)
    ensures DifficultyBadgeColor(difficulty) == "badge-success" <==> difficulty.Some? && ToLower(difficulty.value) == "easy"
    ensures DifficultyBadgeColor(difficulty) == "badge-warning" <==> difficulty.Some? && ToLower(difficulty.value) == "medium"
    ensures DifficultyBadgeColor(difficulty) == "badge-error" <==> difficulty.Some? && ToLower(difficulty.value) == "hard"
    ensures DifficultyBadgeColor(difficulty) == "badge-neutral" <==>
      difficulty.None? || !(ToLower(difficulty.value) in ["easy", "medium", "hard"])
    ensures difficulty.Some? ==> DifficultyBadgeColor(difficulty) == DifficultyBadgeColor(Some(ToLower(difficulty.value)))
  {
    if difficulty.Some? {
      LowerOfLower(difficulty.value);
      if difficulty.value == "" {
        assert ToLower(difficulty.value) == "";
      }
    }
  }

  /** Mixed-case spellings are recognised: `Easy` is a success badge, `HARD` an error badge. */
  lemma BadgeColorExamples()
    ensures DifficultyBadgeColor(Some("Easy")) == "badge-success"
    ensures DifficultyBadgeColor(Some("HARD")) == "badge-error"
    ensures DifficultyBadgeColor(Some("")) == "badge-neutral" && DifficultyBadgeColor(None) == "badge-neutral"
  {
    assert ToLower("Easy") == "easy";
    assert ToLower("HARD") == "hard";
  }
}
