/**
 * The blog page: six posts in four categories, the category buttons, the
 * badge label of a post, and which of the empty state and the load-more
 * button is shown.
 */
module BlogPage {
  import opened Lists
  import opened Catalog

  /** A post card; the excerpt and the image class are display text and left out. */
  datatype Post = Post(id: nat, title: string, category: string, author: string, date: string, readTime: nat)

  const Posts: seq<Post> := [
    Post(1, "Die wahren Kosten von Lieferplattformen", "criticism", "Markus Weber", "2023-11-15", 8),
    Post(2, "Open-Source Alternativen für Onlineshops", "alternatives", "Sarah Müller", "2023-10-28", 12),
    Post(3, "Wie ein Café die Plattformabhängigkeit überwunden hat", "case-studies", "Jana Krause", "2023-09-22", 6),
    Post(4, "Die dunkle Seite der Sichtbarkeits-Algorithmen", "criticism", "Thomas Schmidt", "2023-11-05", 10),
    Post(5, "Der Aufstieg gemeinschaftlich geführter digitaler Plattformen", "insights", "Laura Becker", "2023-10-12", 9),
    Post(6, "Vom Plattformarbeiter zum unabhängigen Anbieter", "alternatives", "Kai Hoffmann", "2023-09-10", 7)
  ]

  /** A category button. */
  datatype CategoryOption = CategoryOption(id: string, name: string)

  const Categories: seq<CategoryOption> := [
    CategoryOption(All, "Alle Artikel"),
    CategoryOption("criticism", "Plattformkritik"),
    CategoryOption("alternatives", "Alternativen"),
    CategoryOption("case-studies", "Fallstudien"),
    CategoryOption("insights", "Analysen")
  ]

  /** The initial selection, also restored by the empty state's button. */
  const InitialCategory := All

  function CategoryOf(p: Post): string {
    p.category
  }

  /** `filteredPosts` for a selection. */
  function FilteredPosts(category: string): seq<Post> {
    TabFilter(Posts, category, CategoryOf)
  }

  /** The badge and image label of a post: three known categories, everything else "Analyse". */
  function CategoryLabel(category: string): (r: string)
    ensures r in ["Plattformkritik", "Alternativen", "Fallstudie", "Analyse"]
    ensures r == "Analyse" <==> category != "criticism" && category != "alternatives" && category != "case-studies"
  {
    if category == "criticism" then "Plattformkritik"
    else if category == "alternatives" then "Alternativen"
    else if category == "case-studies" then "Fallstudie"
    else "Analyse"
  }

  /**
   * The badge agrees with the button name for criticism and alternatives,
   * and is the singular of it for case studies and insights.
   */
  lemma LabelsAgainstButtons()
    ensures CategoryLabel(Categories[1].id) == Categories[1].name
    ensures CategoryLabel(Categories[2].id) == Categories[2].name
    ensures CategoryLabel(Categories[3].id) + "n" == Categories[3].name
    ensures CategoryLabel(Categories[4].id) + "n" == Categories[4].name
  {
  }

  /** `filteredPosts.length === 0`. */
  predicate EmptyStateShown(category: string) {
    |FilteredPosts(category)| == 0
  }

  /** `filteredPosts.length > 0`. */
  predicate LoadMoreShown(category: string) {
    |FilteredPosts(category)| > 0
  }

  /** Exactly one of the empty state and the load-more button is shown. */
  lemma EmptyStateOrLoadMore(category: string)
    ensures EmptyStateShown(category) <==> !LoadMoreShown(category)
    ensures EmptyStateShown(category) <==> FilteredPosts(category) == []
  {
  }

  /** The categories of the six posts, by position. */
  predicate Layout(s: seq<Post>) {
    |s| == 6 &&
    s[0].category == "criticism" && s[1].category == "alternatives" && s[2].category == "case-studies" &&
    s[3].category == "criticism" && s[4].category == "insights" && s[5].category == "alternatives"
  }

  lemma PostsLayout()
    ensures Layout(Posts)
  {
  }

  /** Every post's category is one of the buttons other than `'all'`. */
  lemma PostCategoriesKnown(i: nat)
    requires i < |Posts|
    ensures exists j :: 1 <= j < |Categories| && Categories[j].id == Posts[i].category
  {
    PostsLayout();
    var j := if Posts[i].category == "criticism" then 1
      else if Posts[i].category == "alternatives" then 2
      else if Posts[i].category == "case-studies" then 3 else 4;
    assert Categories[j].id == Posts[i].category;
  }

  /** No button selects an empty list, so the empty state never shows for them. */
  lemma ButtonsNonEmpty(j: nat)
    requires j < |Categories|
    ensures LoadMoreShown(Categories[j].id) && !EmptyStateShown(Categories[j].id)
  {
    PostsLayout();
    var c := Categories[j].id;
    if c != All {
      TabEmptyIff(Posts, c, CategoryOf);
      var w := if c == "criticism" then 0 else if c == "alternatives" then 1 else if c == "case-studies" then 2 else 4;
      assert CategoryOf(Posts[w]) == c;
    }
  }

  /** The initial selection and the reset show all six posts, with the load-more button. */
  lemma InitialShowsAll()
    ensures FilteredPosts(InitialCategory) == Posts && LoadMoreShown(InitialCategory)
  {
    AllTabShowsEverything(Posts, CategoryOf);
  }

  /** A selection outside the buttons (which the page cannot produce) would show the empty state. */
  lemma UnknownCategoryIsEmpty(category: string)
    requires category != All
    requires forall j :: 0 <= j < |Categories| ==> Categories[j].id != category
    ensures EmptyStateShown(category)
  {
    PostsLayout();
    TabEmptyIff(Posts, category, CategoryOf);
    assert Categories[1].id != category && Categories[2].id != category;
    assert Categories[3].id != category && Categories[4].id != category;
  }
}
