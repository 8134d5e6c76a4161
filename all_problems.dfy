/** The problem list: the three filters over the fetched problems, the solved
    badge, how the two list responses are read, and the difficulty badge. */
module AllProblems {
  import opened Js

  /** A listed problem. `_id`, `difficulty` and `tags` are compared with `===`, so a missing
      value is kept as `None` and equals only another missing value. */
  datatype Problem = Problem(id: Option<string>, title: string, difficulty: Option<string>, tags: Option<string>)

  /** An entry of the solved list: the problem's id under `problemId` or `_id`. */
  datatype SolvedEntry = SolvedEntry(problemId: Option<string>, id: Option<string>)

  datatype Filters = Filters(difficulty: string, tag: string, status: string)

  const DefaultFilters: Filters := Filters("all", "all", "all")

  // ------------------------------------------------------------ solved

  predicate EntryIsFor(e: SolvedEntry, p: Problem) {
    e.problemId == p.id || e.id == p.id
  }

  /** `solvedProblems.some(...)`: the predicate behind both the 'solved' filter and the badge. */
  predicate IsSolved(solved: seq<SolvedEntry>, p: Problem) {
    exists i :: 0 <= i < |solved| && EntryIsFor(solved[i], p)
  }

  /** `some` as the loop it is: stops at the first entry for the problem. */
  function AnySolved(solved: seq<SolvedEntry>, p: Problem): (found: bool)
    ensures found <==> IsSolved(solved, p)
    decreases |solved|
  {
    if |solved| == 0 then false
    else EntryIsFor(solved[0], p) || AnySolved(solved[1..], p)
  }

  // ------------------------------------------------------------ filters

  predicate DifficultyMatches(f: Filters, p: Problem) {
    f.difficulty == "all" || p.difficulty == Some(f.difficulty)
  }

  predicate TagMatches(f: Filters, p: Problem) {
    f.tag == "all" || p.tags == Some(f.tag)
  }

  predicate StatusMatches(f: Filters, solved: seq<SolvedEntry>, p: Problem) {
    f.status == "solved" ==> AnySolved(solved, p)
  }

  predicate Keep(f: Filters, solved: seq<SolvedEntry>, p: Problem) {
    DifficultyMatches(f, p) && TagMatches(f, p) && StatusMatches(f, solved, p)
  }

  /** `filteredProblems`: the problems passing all three filters, in their original order. */
  function FilteredProblems(problems: seq<Problem>, solved: seq<SolvedEntry>, f: Filters): (shown: seq<Problem>)
    ensures IsSubsequence(shown, problems)
    ensures forall p :: p in shown <==>
                          p in problems && (f.difficulty == "all" || p.difficulty == Some(f.difficulty))
                          && (f.tag == "all" || p.tags == Some(f.tag))
                          && (f.status == "solved" ==> IsSolved(solved, p))
    ensures forall p :: multiset(shown)[p] == (if Keep(f, solved, p) then multiset(problems)[p] else 0)
  {
    Filter(p => Keep(f, solved, p), problems)
  }

  /** The filters start as 'all', under which nothing is hidden. */
  lemma DefaultFiltersShowAll(problems: seq<Problem>, solved: seq<SolvedEntry>)
    ensures FilteredProblems(problems, solved, DefaultFilters) == problems
  {
    assert forall i :: 0 <= i < |problems| ==> Keep(DefaultFilters, solved, problems[i]);
  }

  /** Only the 'solved' status restricts: any other value (the 'all' option) ignores the solved list. */
  lemma StatusOtherThanSolvedIgnoresList(problems: seq<Problem>, solved: seq<SolvedEntry>, f: Filters)
    requires f.status != "solved"
    ensures FilteredProblems(problems, solved, f) == FilteredProblems(problems, [], f)
  {
    var keep1 := (p: Problem) => Keep(f, solved, p);
    var keep2 := (p: Problem) => Keep(f, [], p);
    FilterSameKeep(keep1, keep2, problems);
  }

  /** With status 'solved' every shown problem carries the Solved badge, and every problem with
      the badge that passes the other two filters is shown. */
  lemma SolvedFilterMatchesBadge(problems: seq<Problem>, solved: seq<SolvedEntry>, f: Filters, p: Problem)
    requires f.status == "solved" && p in problems && DifficultyMatches(f, p) && TagMatches(f, p)
    ensures p in FilteredProblems(problems, solved, f) <==> AnySolved(solved, p)
  {
  }

  // ------------------------------------------------------------ responses

  datatype Stats = Stats(total: int, count: int, page: int, totalPages: int)

  const InitialStats: Stats := Stats(0, 0, 1, 1)

  /** The body of the problems request; `data` is `None` when missing or null. */
  datatype ProblemsBody = ProblemsBody(success: bool, data: Option<seq<Problem>>,
                                       total: Option<int>, count: Option<int>, page: Option<int>, totalPages: Option<int>)

  /** The counters read from an accepted body, each with its default. */
  function StatsOf(body: ProblemsBody): (st: Stats)
    ensures st.page != 0 && st.totalPages != 0
    ensures body.total.None? && body.count.None? && body.page.None? && body.totalPages.None? ==> st == InitialStats
    ensures (body.total.Some? && body.total.value != 0 ==> st.total == body.total.value)
            && (body.total.None? || body.total.value == 0 ==> st.total == 0)
    ensures (body.count.Some? && body.count.value != 0 ==> st.count == body.count.value)
            && (body.count.None? || body.count.value == 0 ==> st.count == 0)
    ensures (body.page.Some? && body.page.value != 0 ==> st.page == body.page.value)
            && (body.page.None? || body.page.value == 0 ==> st.page == 1)
    ensures (body.totalPages.Some? && body.totalPages.value != 0 ==> st.totalPages == body.totalPages.value)
            && (body.totalPages.None? || body.totalPages.value == 0 ==> st.totalPages == 1)
  {
    Stats(NumberOr(body.total, 0), NumberOr(body.count, 0), NumberOr(body.page, 1), NumberOr(body.totalPages, 1))
  }

  /** The body a server would send for some counters. */
  function BodyOfStats(problems: seq<Problem>, st: Stats): ProblemsBody {
    ProblemsBody(true, Some(problems), Some(st.total), Some(st.count), Some(st.page), Some(st.totalPages))
  }

  /** Reading the counters back loses nothing whenever the page numbers are not 0, the one value
      the `||` defaults replace (a count of 0 reads back as 0 anyway). */
  lemma StatsRoundTrip(problems: seq<Problem>, st: Stats)
    requires st.page != 0 && st.totalPages != 0
    ensures StatsOf(BodyOfStats(problems, st)) == st
  {
  }

  /** The body of the solved request: an envelope, a bare array, or nothing usable. */
  datatype SolvedBody = Envelope(success: bool, data: Option<seq<SolvedEntry>>) | BareList(items: seq<SolvedEntry>) | NoBody

  /** The three branches of `fetchSolvedProblems`; the third reads `data` whatever `success` says. */
  function SolvedOf(body: SolvedBody): (solved: seq<SolvedEntry>)
    ensures body.Envelope? && body.data.Some? ==> solved == body.data.value
    ensures body.BareList? ==> solved == body.items
    ensures body.NoBody? || (body.Envelope? && body.data.None?) ==> solved == []
  {
    match body
    case Envelope(success, data) =>
      if success && data.Some? then data.value
      else if data.Some? then data.value
      else []
    case BareList(items) => items
    case NoBody => []
  }

  /** The `success` flag makes no difference to the solved list. */
  lemma SolvedIgnoresSuccess(data: Option<seq<SolvedEntry>>)
    ensures SolvedOf(Envelope(true, data)) == SolvedOf(Envelope(false, data))
  {
  }

  /** `getDifficultyBadgeColor`: case-insensitive, 'badge-neutral' for anything else. */
  function DifficultyBadgeColor(difficulty: Option<string>): (cls: string)
    ensures difficulty.Some? && ToLower(difficulty.value) == "easy" ==> cls == "badge-success"
    ensures difficulty.Some? && ToLower(difficulty.value) == "medium" ==> cls == "badge-warning"
    ensures difficulty.Some? && ToLower(difficulty.value) == "hard" ==> cls == "badge-error"
    ensures cls == "badge-neutral" <==>
              difficulty.None? || !(ToLower(difficulty.value) in {"easy", "medium", "hard"})
  {
    if difficulty.None? then "badge-neutral"
    else
      match ToLower(difficulty.value)
      case "easy" => "badge-success"
      case "medium" => "badge-warning"
      case "hard" => "badge-error"
      case _ => "badge-neutral"
  }

  // ------------------------------------------------------------ the page

  class ProblemList {
    var problems: seq<Problem>
    var solvedProblems: seq<SolvedEntry>
    var loading: bool
    var error: Option<string>
    var stats: Stats
    var filters: Filters

    constructor ()
      ensures problems == [] && solvedProblems == [] && loading && error.None?
      ensures stats == InitialStats && filters == DefaultFilters
    {
      problems := [];
      solvedProblems := [];
      loading := true;
      error := None;
      stats := InitialStats;
      filters := DefaultFilters;
    }

    /** What the list shows. */
    function Shown(): (shown: seq<Problem>)
      reads this
      ensures IsSubsequence(shown, problems)
    {
      FilteredProblems(problems, solvedProblems, filters)
    }

    /** `fetchProblems`: an accepted body replaces the list and the counters; a rejected body or a
        failed request empties the list and sets the error; the loading flag ends false. */
    method FetchProblems(resp: NetResult<ProblemsBody>)
      modifies this`problems, this`stats, this`error, this`loading
      ensures !loading
      ensures resp.Ok? && resp.data.success && resp.data.data.Some? ==>
                problems == resp.data.data.value && stats == StatsOf(resp.data) && error == old(error)
      ensures resp.Ok? && !(resp.data.success && resp.data.data.Some?) ==>
                problems == [] && stats == old(stats) && error == Some("Invalid response format from server")
      ensures resp.Err? ==> problems == [] && stats == old(stats) && error == Some("Failed to fetch problems")
    {
      loading := true;
      match resp {
        case Ok(body) =>
          if body.success && body.data.Some? {
            problems := body.data.value;
            stats := StatsOf(body);
          } else {
            error := Some("Invalid response format from server");
            problems := [];
          }
        case Err(_) =>
          error := Some("Failed to fetch problems");
          problems := [];
      }
      loading := false;
    }

    /** `fetchSolvedProblems`: nothing is requested without a signed-in user. */
    method FetchSolvedProblems(signedIn: bool, resp: NetResult<SolvedBody>)
      modifies this`solvedProblems
      ensures !signedIn ==> solvedProblems == []
      ensures signedIn ==> solvedProblems == (if resp.Ok? then SolvedOf(resp.data) else [])
    {
      if !signedIn {
        solvedProblems := [];
        return;
      }
      match resp {
        case Ok(body) => solvedProblems := SolvedOf(body);
        case Err(_) => solvedProblems := [];
      }
    }

    /** A change of the selects: each select writes a whole new filter record, differing from the
        old one in its own field, and the shown list follows. */
    method SetFilters(f: Filters)
      modifies this`filters
      ensures filters == f
      ensures Shown() == FilteredProblems(problems, solvedProblems, f)
    {
      filters := f;
    }
  }
}
