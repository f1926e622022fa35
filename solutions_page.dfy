/**
 * The solutions page: six solutions in four categories, the category tabs,
 * the status badge lookup and the "no solutions" message.
 */
module SolutionsPage {
  import opened Lists
  import opened Catalog

  /**
   * A solution card. Title, description and features are translation keys;
   * the icon is markup and left out.
   */
  datatype Solution = Solution(
    id: string, category: string, titleKey: string, descriptionKey: string,
    featureKeys: seq<string>, status: string, targetGroups: seq<string>)

  const Solutions: seq<Solution> := [
    Solution("websites", "web", "solutions.websites", "solutions.websitesDesc",
      ["solutions.features.selfUpdate", "solutions.features.noMonthlyFees",
       "solutions.features.seoOptimized", "solutions.features.modernTech"],
      "available", ["gastronomy", "retail", "coaches", "creatives"]),
    Solution("booking", "service", "solutions.booking", "solutions.bookingDesc",
      ["solutions.features.websiteIntegration", "solutions.features.autoConfirmation",
       "solutions.features.calendarSync", "solutions.features.noTransactionFees"],
      "development", ["gastronomy", "coaches"]),
    Solution("shop", "commerce", "solutions.shops", "solutions.shopsDesc",
      ["solutions.features.directSales", "solutions.features.priceControl",
       "solutions.features.inventoryManagement", "solutions.features.flexiblePayment"],
      "development", ["retail", "creatives"]),
    Solution("ordering", "commerce", "solutions.ordering", "solutions.orderingDesc",
      ["solutions.features.orderWithoutFees", "solutions.features.menuManagement",
       "solutions.features.customerComm", "solutions.features.deliveryOptions"],
      "planning", ["gastronomy"]),
    Solution("portfolio", "web", "solutions.portfolio", "solutions.portfolioDesc",
      ["solutions.features.flexibleDisplay", "solutions.features.directContact",
       "solutions.features.dynamicContent", "solutions.features.selfCustomizable"],
      "available", ["creatives"]),
    Solution("newsletter", "marketing", "solutions.newsletter", "solutions.newsletterDesc",
      ["solutions.features.subscriberManagement", "solutions.features.newsletterDesign",
       "solutions.features.scheduledSending", "solutions.features.openRateAnalytics"],
      "planning", ["gastronomy", "retail", "coaches", "creatives"])
  ]

  /** The tab ids, `'all'` first; their names are translation keys `solutions.categories.<id>`. */
  const CategoryIds: seq<string> := [All, "web", "commerce", "service", "marketing"]

  /** A badge: a translated label key and its colour classes. */
  datatype StatusLabel = StatusLabel(labelKey: string, color: string)

  const StatusLabels: map<string, StatusLabel> := map[
    "available" := StatusLabel("solutions.status.available", "bg-green-100 text-green-800"),
    "development" := StatusLabel("solutions.status.development", "bg-yellow-100 text-yellow-800"),
    "planning" := StatusLabel("solutions.status.planning", "bg-blue-100 text-blue-800")
  ]

  /** The initial tab. */
  const InitialTab := All

  function CategoryOf(s: Solution): string {
    s.category
  }

  /** `filteredSolutions` for a tab. */
  function FilteredSolutions(tab: string): seq<Solution> {
    TabFilter(Solutions, tab, CategoryOf)
  }

  /** The page opens on all six solutions. */
  lemma InitialShowsAll()
    ensures FilteredSolutions(InitialTab) == Solutions && |FilteredSolutions(InitialTab)| == 6
  {
    AllTabShowsEverything(Solutions, CategoryOf);
  }

  /** The categories and statuses of the six solutions, by position. */
  predicate Layout(s: seq<Solution>) {
    |s| == 6 &&
    s[0].category == "web" && s[1].category == "service" && s[2].category == "commerce" &&
    s[3].category == "commerce" && s[4].category == "web" && s[5].category == "marketing" &&
    s[0].status == "available" && s[1].status == "development" && s[2].status == "development" &&
    s[3].status == "planning" && s[4].status == "available" && s[5].status == "planning"
  }

  lemma SolutionsLayout()
    ensures Layout(Solutions)
  {
  }

  /** Each solution has one category other than `'all'`, so it appears under exactly one tab. */
  lemma OneTabPerSolution(i: nat, tab: string)
    requires i < |Solutions| && tab != All
    ensures Solutions[i] in FilteredSolutions(tab) <==> tab == Solutions[i].category
    ensures Solutions[i].category != All
  {
    SolutionsLayout();
    TabsPartition(Solutions, CategoryOf, Solutions[i], tab);
  }

  /** Every solution's status is a key of the badge table, so the lookup always finds a badge. */
  lemma StatusLookupTotal(i: nat)
    requires i < |Solutions|
    ensures Solutions[i].status in StatusLabels
  {
    SolutionsLayout();
  }

  /** `filteredSolutions.length === 0`. */
  predicate NoSolutionsShown(tab: string) {
    |FilteredSolutions(tab)| == 0
  }

  /** No fixed tab is empty, so the "no solutions" message never shows for them. */
  lemma FixedTabsNonEmpty(tab: string)
    requires tab in CategoryIds
    ensures !NoSolutionsShown(tab)
  {
    SolutionsLayout();
    if tab != All {
      TabEmptyIff(Solutions, tab, CategoryOf);
      var w := if tab == "web" then 0 else if tab == "service" then 1 else if tab == "commerce" then 2 else 5;
      assert CategoryOf(Solutions[w]) == tab;
    }
  }

  /** In a list laid out like the solutions, the commerce tab holds the third and fourth entries. */
  lemma CommerceOfLayout(s: seq<Solution>)
    requires Layout(s)
    ensures TabFilter(s, "commerce", CategoryOf) == [s[2], s[3]]
  {
    var p := InTab(CategoryOf, "commerce");
    assert s == s[..2] + s[2..4] + s[4..];
    FilterConcat(s[..2] + s[2..4], s[4..], p);
    FilterConcat(s[..2], s[2..4], p);
    FilterNone(s[..2], p);
    FilterAll(s[2..4], p);
    FilterNone(s[4..], p);
    assert s[2..4] == [s[2], s[3]];
  }

  /** The commerce tab lists the shop and the ordering system, in that order. */
  lemma CommerceTab()
    ensures FilteredSolutions("commerce") == [Solutions[2], Solutions[3]]
    ensures Solutions[2].id == "shop" && Solutions[3].id == "ordering"
  {
    SolutionsLayout();
    CommerceOfLayout(Solutions);
  }
}
