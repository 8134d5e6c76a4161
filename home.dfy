/** The home page's practice list: eight fixed problems, a title search, a
    difficulty select and category tabs, and the difficulty colour. */
module HomePage {
  import opened Js

  datatype CatalogProblem = CatalogProblem(id: int, title: string, difficulty: string, category: string)

  /** The list the page shows, in its order. */
  const Catalog: seq<CatalogProblem> := [
    CatalogProblem(1, "Two Sum", "Easy", "Array"),
    CatalogProblem(2, "Reverse Linked List", "Easy", "Linked List"),
    CatalogProblem(3, "Merge Intervals", "Medium", "Array"),
    CatalogProblem(4, "Longest Substring Without Repeating Characters", "Medium", "String"),
    CatalogProblem(5, "Trapping Rain Water", "Hard", "Array"),
    CatalogProblem(6, "Median of Two Sorted Arrays", "Hard", "Binary Search"),
    CatalogProblem(7, "Valid Parentheses", "Easy", "Stack"),
    CatalogProblem(8, "Binary Tree Level Order Traversal", "Medium", "Tree")
  ]

  const Categories: seq<string> := ["All", "Array", "String", "Linked List", "Tree", "Dynamic Programming", "Backtracking", "Graph"]
  const Difficulties: seq<string> := ["All", "Easy", "Medium", "Hard"]

  /** The value an option of the difficulty select carries: its label lower-cased. */
  function OptionValue(name: string): (v: string)
    ensures |v| == |name|
    ensures forall i :: 0 <= i < |v| ==> !IsUpper(v[i])
  {
    ToLower(name)
  }

  /** The active tab a category button stores: 'all' for 'All', else the category itself. */
  function TabValue(category: string): (tab: string)
    ensures tab == "all" <==> category == "All" || category == "all"
    ensures category != "All" ==> tab == category
  {
    if category == "All" then "all" else category
  }

  predicate MatchesSearch(p: CatalogProblem, query: string) {
    Includes(ToLower(p.title), ToLower(query))
  }

  predicate Keep(tab: string, difficulty: string, query: string, p: CatalogProblem) {
    MatchesSearch(p, query) && (difficulty == "all" || p.difficulty == difficulty) && (tab == "all" || p.category == tab)
  }

  /** `filteredProblems`: the catalog entries passing the search, the difficulty and the category, in order. */
  function FilteredProblems(tab: string, difficulty: string, query: string): (shown: seq<CatalogProblem>)
    ensures IsSubsequence(shown, Catalog)
    ensures forall p :: p in shown <==>
                          p in Catalog && Includes(ToLower(p.title), ToLower(query))
                          && (difficulty == "all" || p.difficulty == difficulty)
                          && (tab == "all" || p.category == tab)
    ensures forall p :: multiset(shown)[p] == (if Keep(tab, difficulty, query, p) then multiset(Catalog)[p] else 0)
  {
    Filter(p => Keep(tab, difficulty, query, p), Catalog)
  }

  /** The search ignores case: a query and its lower-cased form show the same list. */
  lemma SearchIgnoresCase(tab: string, difficulty: string, query: string)
    ensures FilteredProblems(tab, difficulty, ToLower(query)) == FilteredProblems(tab, difficulty, query)
  {
    ToLowerIdempotent(query);
    FilterSameKeep((p: CatalogProblem) => Keep(tab, difficulty, ToLower(query), p),
                   (p: CatalogProblem) => Keep(tab, difficulty, query, p), Catalog);
  }

  /** The empty query occurs in every title, so with 'all' selected the whole catalog is shown. */
  lemma EmptyQueryShowsAll()
    ensures FilteredProblems("all", "all", "") == Catalog
  {
    forall i | 0 <= i < |Catalog| ensures Keep("all", "all", "", Catalog[i]) {
      assert OccursAt(ToLower(Catalog[i].title), ToLower(""), 0);
    }
  }

  /** Every option but 'all' carries a lower-case value, while the catalog spells its difficulties
      with a capital letter: choosing any difficulty empties the list. */
  lemma DifficultySelectionShowsNothing(name: string, tab: string, query: string)
    requires name in Difficulties && name != "All"
    ensures OptionValue(name) != "all"
    ensures FilteredProblems(tab, OptionValue(name), query) == []
  {
    var v := OptionValue(name);
    assert v == "easy" || v == "medium" || v == "hard";
    forall i | 0 <= i < |Catalog| ensures !Keep(tab, v, query, Catalog[i]) {
      assert Catalog[i].difficulty in {"Easy", "Medium", "Hard"};
    }
    FilterNone((p: CatalogProblem) => Keep(tab, v, query, p), Catalog);
  }

  /** The capitalised spelling, which no option carries, would keep only problems of that
      difficulty, and would not empty the list. */
  lemma CapitalisedDifficultySelects(tab: string, query: string)
    ensures forall p :: p in FilteredProblems(tab, "Easy", query) ==> p.difficulty == "Easy" && p in Catalog
    ensures Catalog[0] in FilteredProblems("all", "Easy", "")
  {
    assert OccursAt(ToLower(Catalog[0].title), ToLower(""), 0);
  }

  /** A category tab keeps only problems of that category. */
  lemma TabShowsOnlyItsCategory(category: string, difficulty: string, query: string)
    requires category != "All" && category != "all"
    ensures forall p :: p in FilteredProblems(TabValue(category), difficulty, query) ==> p.category == category
  {
  }

  /** `getDifficultyColor` here compares exactly, so only the capitalised names are coloured. */
  function DifficultyColor(difficulty: string): (cls: string)
    ensures difficulty == "Easy" ==> cls == "text-success"
    ensures difficulty == "Medium" ==> cls == "text-warning"
    ensures difficulty == "Hard" ==> cls == "text-error"
    ensures cls == "text-gray-600" <==> difficulty !in {"Easy", "Medium", "Hard"}
  {
    match difficulty
    case "Easy" => "text-success"
    case "Medium" => "text-warning"
    case "Hard" => "text-error"
    case _ => "text-gray-600"
  }

  /** Every catalog entry gets one of the three colours. */
  lemma CatalogIsColoured(p: CatalogProblem)
    requires p in Catalog
    ensures DifficultyColor(p.difficulty) != "text-gray-600"
  {
  }
}
