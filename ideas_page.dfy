/**
 * The public ideas page: six ideas, the status buttons, the case-insensitive
 * search, the status badge lookup and the reset of the empty state.
 */
module IdeasPage {
  import opened Wrappers
  import opened Lists
  import opened Text
  import opened Catalog

  datatype Idea = Idea(
    id: nat, title: string, description: string, status: string, votes: nat,
    category: string, industry: string, date: string)

  const Ideas: seq<Idea> := [
    Idea(1, "Eigenes Buchungssystem für Restaurants",
      "Ein einfaches Reservierungssystem für Restaurants, das direkt in die eigene Website integriert werden kann und keine monatlichen Gebühren kostet.",
      "inProgress", 42, "tool", "gastronomy", "2023-09-15"),
    Idea(2, "Open-Source Alternative zu Lieferando & Co.",
      "Ein gemeinsames Bestellsystem für lokale Restaurants, das ohne hohe Provisionen auskommt und die direkte Beziehung zum Kunden stärkt.",
      "planned", 76, "platform", "gastronomy", "2023-08-22"),
    Idea(3, "Einfache Portfolio-Website für Kreative",
      "Eine Möglichkeit für Künstler, Designer und andere Kreative, ihre Arbeiten zu präsentieren, ohne von großen Plattformen abhängig zu sein.",
      "completed", 38, "tool", "creatives", "2023-10-05"),
    Idea(4, "Gemeinsamer Marktplatz für lokale Händler",
      "Eine Plattform, die lokale Händler zusammenbringt, aber in ihrem Besitz bleibt – ohne hohe Gebühren oder Abhängigkeiten.",
      "received", 51, "platform", "retail", "2023-11-12"),
    Idea(5, "Modulares Coaching-Buchungssystem",
      "Ein System für Coaches und Berater:innen, um ihre Termine zu verwalten, ohne auf teure Plattformen angewiesen zu sein.",
      "inProgress", 29, "tool", "coaches", "2023-10-18"),
    Idea(6, "Verbundene Open-Source-Alternativen",
      "Eine Initiative, bestehende Open-Source-Alternativen zu kommerziellen Plattformen miteinander zu verbinden und einfacher zugänglich zu machen.",
      "onHold", 63, "initiative", "all", "2023-09-01")
  ]

  /** A status button and badge; the `'all'` entry has no colour. */
  datatype StatusType = StatusType(id: string, name: string, color: Option<string>)

  const StatusTypes: seq<StatusType> := [
    StatusType(All, "Alle Ideen", None),
    StatusType("received", "Eingegangen", Some("bg-blue-100 text-blue-800")),
    StatusType("planned", "Geplant", Some("bg-purple-100 text-purple-800")),
    StatusType("inProgress", "In Arbeit", Some("bg-yellow-100 text-yellow-800")),
    StatusType("completed", "Umgesetzt", Some("bg-green-100 text-green-800")),
    StatusType("onHold", "Auf Eis", Some("bg-gray-100 text-gray-800"))
  ]

  function StatusOf(idea: Idea): string {
    idea.status
  }

  /** The search test: an empty term passes, otherwise the lowercased title or description contains the lowercased term. */
  function SearchTest(term: string): Idea -> bool {
    (idea: Idea) => term == "" || Contains(Lower(idea.title), Lower(term)) || Contains(Lower(idea.description), Lower(term))
  }

  /** `filteredIdeas`: the status filter, then the search. */
  function FilteredIdeas(ideas: seq<Idea>, filter: string, term: string): seq<Idea> {
    Filter(TabFilter(ideas, filter, StatusOf), SearchTest(term))
  }

  /** Both tests of the list at once: the status (`'all'` or equal) and the search. */
  function Listed(filter: string, term: string): Idea -> bool {
    (x: Idea) => (filter == All || x.status == filter) && SearchTest(term)(x)
  }

  /** The two chained filters keep what one pass with both tests keeps, in the same order. */
  lemma {:induction false} FilteredIdeasOnePass(ideas: seq<Idea>, filter: string, term: string)
    ensures FilteredIdeas(ideas, filter, term) == Filter(ideas, Listed(filter, term))
    decreases |ideas|
  {
    if ideas != [] && filter != All {
      var f := InTab(StatusOf, filter);
      var head := if ideas[0].status == filter then [ideas[0]] else [];
      assert StatusOf(ideas[0]) == ideas[0].status;
      assert Filter(ideas, f) == head + Filter(ideas[1..], f);
      FilterConcat(head, Filter(ideas[1..], f), SearchTest(term));
      FilteredIdeasOnePass(ideas[1..], filter, term);
      if head != [] {
        assert head[1..] == [];
      }
    } else if ideas != [] {
      FilteredIdeasOnePass(ideas[1..], filter, term);
    }
  }

  /** An idea is listed exactly when it passes both tests; the list is the filter of the original in one pass. */
  lemma FilteredIdeasMembers(ideas: seq<Idea>, filter: string, term: string, x: Idea)
    ensures FilteredIdeas(ideas, filter, term) == Filter(ideas, Listed(filter, term))
    ensures x in FilteredIdeas(ideas, filter, term) <==>
      x in ideas && (filter == All || x.status == filter) && SearchTest(term)(x)
  {
    FilteredIdeasOnePass(ideas, filter, term);
    FilterMembers(ideas, Listed(filter, term));
  }

  /** The shown count never exceeds the total. */
  lemma ShownAtMostTotal(ideas: seq<Idea>, filter: string, term: string)
    ensures |FilteredIdeas(ideas, filter, term)| <= |ideas|
  {
  }

  /** The reset button (`'all'` and `''`) lists every idea, in order. */
  lemma ResetShowsAll(ideas: seq<Idea>)
    ensures FilteredIdeas(ideas, All, "") == ideas
  {
    AllTabShowsEverything(ideas, StatusOf);
    FilterAll(ideas, SearchTest(""));
  }

  /**
   * A whitespace-only term is searched for like any other: it drops an idea
   * whose title and description have no whitespace, where `''` keeps it.
   */
  lemma BlankTermIsASearch(idea: Idea, term: string)
    requires term != "" && AllSpace(term)
    requires forall i :: 0 <= i < |idea.title| ==> !IsSpace(idea.title[i])
    requires forall i :: 0 <= i < |idea.description| ==> !IsSpace(idea.description[i])
    ensures !SearchTest(term)(idea)
    ensures SearchTest("")(idea)
  {
    SpaceFreeLacksSpaces(idea.title, term);
    SpaceFreeLacksSpaces(idea.description, term);
  }

  /** `find` by id: the position of the first entry with the id, if any. */
  function FindStatus(types: seq<StatusType>, id: string): (r: Option<nat>)
    ensures r.Some? ==> r.value < |types| && types[r.value].id == id
    ensures r.Some? ==> forall j :: 0 <= j < r.value ==> types[j].id != id
    ensures r.None? <==> forall j :: 0 <= j < |types| ==> types[j].id != id
  {
    if types == [] then None
    else if types[0].id == id then Some(0)
    else match FindStatus(types[1..], id)
      case None => None
      case Some(k) => Some(k + 1)
  }

  /** `getStatusDetails`: the table's entry with the id (ids are distinct), otherwise the first entry of the table. */
  function StatusDetails(id: string): (r: StatusType)
    ensures (exists j :: 0 <= j < |StatusTypes| && StatusTypes[j].id == id) ==> r.id == id
    ensures forall j :: 0 <= j < |StatusTypes| && StatusTypes[j].id == id ==> r == StatusTypes[j]
    ensures r in StatusTypes
    ensures (forall j :: 0 <= j < |StatusTypes| ==> StatusTypes[j].id != id) ==> r == StatusTypes[0]
  {
    match FindStatus(StatusTypes, id)
    case Some(j) => StatusTypes[j]
    case None => StatusTypes[0]
  }

  /** The statuses of the six ideas, by position. */
  predicate Layout(s: seq<Idea>) {
    |s| == 6 &&
    s[0].status == "inProgress" && s[1].status == "planned" && s[2].status == "completed" &&
    s[3].status == "received" && s[4].status == "inProgress" && s[5].status == "onHold"
  }

  lemma IdeasLayout()
    ensures Layout(Ideas)
  {
  }

  /** Every status a list laid out like the ideas uses has an entry with a colour. */
  lemma StatusKnownOfLayout(s: seq<Idea>, i: nat)
    requires Layout(s) && i < |s|
    ensures StatusDetails(s[i].status).id == s[i].status
    ensures StatusDetails(s[i].status).color.Some?
  {
    var st := s[i].status;
    var j := if st == "received" then 1 else if st == "planned" then 2 else if st == "inProgress" then 3
      else if st == "completed" then 4 else 5;
    assert StatusTypes[j].id == st;
    assert StatusTypes[0].id != st;
  }

  /** Every idea's status has an entry, so the fallback is never used and every badge has a colour. */
  lemma EveryStatusKnown(i: nat)
    requires i < |Ideas|
    ensures StatusDetails(Ideas[i].status).id == Ideas[i].status
    ensures StatusDetails(Ideas[i].status).color.Some?
  {
    IdeasLayout();
    StatusKnownOfLayout(Ideas, i);
  }

  /** The category label: tool and platform are named, everything else is an initiative. */
  function CategoryLabel(category: string): (r: string)
    ensures category == "tool" ==> r == "Werkzeug"
    ensures category == "platform" ==> r == "Plattform"
    ensures r == "Initiative" <==> category != "tool" && category != "platform"
  {
    if category == "tool" then "Werkzeug" else if category == "platform" then "Plattform" else "Initiative"
  }

  /** The industry tag's translation key; the conditional in it picks the industry in both branches. */
  function IndustryKey(industry: string): (r: string)
    ensures r == "targetGroups." + industry
  {
    "targetGroups." + (if industry == All then All else industry)
  }
}
