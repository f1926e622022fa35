/**
 * The application shell: the route registry, the routes shown in the
 * navigation, and the language preference (boot-time resolution and
 * `changeLanguage`).
 */
module App {
  import opened Wrappers
  import opened Lists
  import opened Browser

  /** The page component a route renders. */
  datatype Page =
    | HomePage | ManifestPage | AboutPage | SolutionsPage | TargetGroupsPage | SeniorsPage
    | PartnerPage | StoryPage | CustomerStoryPage | IdeasPage | BlogPage | VotingPage
    | WaitlistPage | ContactPage | ImpressumPage | DatenschutzPage | ForkButtonDemoPage | ProjectPage

  /** How a route's display name is obtained: through the translation function `t`, or as a literal. */
  datatype Label = Translated(key: string) | Literal(text: string)

  /** A registry entry; `navSection` and `showInNav` are absent on some entries. */
  datatype Route = Route(path: string, name: Label, page: Page, navSection: Option<string>, showInNav: Option<bool>)

  /** The display name of a route under the translation function `t`. */
  function RouteName(r: Route, t: string -> string): (n: string)
    ensures r.name.Translated? ==> n == t(r.name.key)
    ensures r.name.Literal? ==> n == r.name.text
  {
    match r.name
    case Translated(k) => t(k)
    case Literal(s) => s
  }

  /** `getRoutes()`, in registry order. */
  const Registry: seq<Route> := [
    Route("/", Translated("nav.home"), HomePage, Some("start"), None),
    Route("/manifest", Translated("nav.manifest"), ManifestPage, Some("von-uns"), None),
    Route("/ueber-uns", Translated("nav.about"), AboutPage, Some("von-uns"), None),
    Route("/loesungen", Translated("nav.solutions"), SolutionsPage, Some("fuer-euch"), None),
    Route("/fuer-wen", Translated("nav.targetGroups"), TargetGroupsPage, Some("fuer-euch"), None),
    Route("/senioren", Literal("Für Senioren"), SeniorsPage, Some("fuer-euch"), None),
    Route("/partner-werden", Translated("nav.partners"), PartnerPage, Some("ressourcen"), None),
    Route("/deine-story", Translated("nav.story"), StoryPage, Some("ressourcen"), None),
    Route("/deine-story/restaurant-meier", Literal("Story: Restaurant Meier"), CustomerStoryPage, None, Some(false)),
    Route("/ideen", Translated("nav.ideas"), IdeasPage, Some("ressourcen"), None),
    Route("/blog", Translated("nav.blog"), BlogPage, Some("ressourcen"), None),
    Route("/name-voting", Translated("nav.voting"), VotingPage, Some("ressourcen"), None),
    Route("/warteliste", Translated("nav.waitlist"), WaitlistPage, Some("actions"), None),
    Route("/kontakt", Translated("nav.contact"), ContactPage, Some("actions"), None),
    Route("/impressum", Literal("Impressum"), ImpressumPage, None, Some(false)),
    Route("/datenschutz", Literal("Datenschutz"), DatenschutzPage, None, Some(false)),
    Route("/components/fork-button", Literal("Fork Button"), ForkButtonDemoPage, None, Some(false)),
    Route("/projekte/restaurant-template", Literal("Restaurant Template"), ProjectPage, None, Some(false))
  ]

  /** `route.showInNav !== false`: an absent flag counts as shown. */
  predicate ShownInNav(r: Route) {
    r.showInNav != Some(false)
  }

  /** `navRoutes`: the registry without the routes marked `showInNav: false`, in registry order. */
  function NavRoutes(routes: seq<Route>): seq<Route> {
    Filter(routes, ShownInNav)
  }

  /** The paths the router registers: every registry route, hidden or not. */
  function RouterPaths(routes: seq<Route>): seq<string> {
    Map(routes, (r: Route) => r.path)
  }

  /**
   * The names written as literals ignore the language: "/senioren" and the
   * five hidden routes have the same name under any two translation functions.
   */
  lemma LiteralNamesIgnoreLanguage(t1: string -> string, t2: string -> string, i: nat)
    requires i < |Registry| && (i == 5 || i == 8 || 14 <= i)
    ensures RouteName(Registry[i], t1) == RouteName(Registry[i], t2)
    ensures RouteName(Registry[5], t1) == "Für Senioren"
  {
  }

  /** The router gets one path per route, in order, distinct when the routes' paths are. */
  lemma RouterPathsOf(routes: seq<Route>)
    requires forall i, j :: 0 <= i < j < |routes| ==> routes[i].path != routes[j].path
    ensures |RouterPaths(routes)| == |routes|
    ensures forall i :: 0 <= i < |routes| ==> RouterPaths(routes)[i] == routes[i].path
    ensures forall i, j :: 0 <= i < j < |routes| ==> RouterPaths(routes)[i] != RouterPaths(routes)[j]
    ensures forall r :: r in routes ==> r.path in RouterPaths(routes)
  {
    forall r | r in routes
      ensures r.path in RouterPaths(routes)
    {
      var i :| 0 <= i < |routes| && routes[i] == r;
      assert RouterPaths(routes)[i] == r.path;
    }
  }

  /** Every registry route, hidden or not, is registered with the router, in registry order and once each. */
  lemma RouterRegistersEveryRoute()
    ensures |RouterPaths(Registry)| == 18
    ensures forall i :: 0 <= i < |Registry| ==> RouterPaths(Registry)[i] == Registry[i].path
    ensures forall i, j :: 0 <= i < j < 18 ==> RouterPaths(Registry)[i] != RouterPaths(Registry)[j]
    ensures forall r :: r in Registry ==> r.path in RouterPaths(Registry)
  {
    RegistryPathsDistinct();
    RouterPathsOf(Registry);
  }

  /** A route hidden from the navigation is still registered with the router. */
  lemma HiddenRoutesStillRouted(r: Route)
    requires r in Registry && !ShownInNav(r)
    ensures r.path in RouterPaths(Registry)
    ensures r !in NavRoutes(Registry)
  {
    RouterRegistersEveryRoute();
    FilterMembers(Registry, ShownInNav);
  }

  /** The registry has 18 routes, no two with the same path. */
  lemma RegistryPathsDistinct()
    ensures |Registry| == 18
    ensures forall i, j :: 0 <= i < j < |Registry| ==> Registry[i].path != Registry[j].path
  {
  }

  /** Filtering a list of one element followed by the rest: the head first, then the rest's result. */
  lemma FilterCons(x: Route, s: seq<Route>, p: Route -> bool)
    ensures Filter([x] + s, p) == (if p(x) then [x] else []) + Filter(s, p)
  {
    assert ([x] + s)[1..] == s;
  }

  /** Filtering a list split at `k`: the front's result, then the back's. */
  lemma FilterSplit(s: seq<Route>, k: nat, p: Route -> bool)
    requires k <= |s|
    ensures Filter(s, p) == Filter(s[..k], p) + Filter(s[k..], p)
  {
    assert s == s[..k] + s[k..];
    FilterConcat(s[..k], s[k..], p);
  }

  /** Filtering an 18-route list block by block: eight routes, one, five, and the last four. */
  lemma FilterBlocks(s: seq<Route>, p: Route -> bool)
    requires |s| == 18
    ensures Filter(s, p)
      == Filter(s[..8], p) + (if p(s[8]) then [s[8]] else [])
         + Filter(s[9..14], p) + Filter(s[14..], p)
  {
    var back := s[8..];
    FilterSplit(s, 8, p);
    FilterSplit(back, 1, p);
    var rest := back[1..];
    assert back[..1] == [s[8]];
    assert Filter([s[8]], p) == (if p(s[8]) then [s[8]] else []) by {
      assert [s[8]][1..] == [];
    }
    FilterSplit(rest, 5, p);
    assert rest[..5] == s[9..14];
    assert rest[5..] == s[14..];
  }

  /** The shape of the registry's flags: shown, shown ×7, hidden, shown ×5, hidden ×4. */
  predicate FlagLayout(s: seq<Route>) {
    && |s| == 18
    && (forall i :: 0 <= i < 8 ==> ShownInNav(s[i]))
    && !ShownInNav(s[8])
    && (forall i :: 9 <= i < 14 ==> ShownInNav(s[i]))
    && (forall i :: 14 <= i < 18 ==> !ShownInNav(s[i]))
  }

  /** The registry has that layout. */
  lemma RegistryLayout()
    ensures FlagLayout(Registry)
  {
  }

  /** In any list with the registry's flag layout, the hidden routes are the ninth and the last four. */
  lemma HiddenOfLayout(s: seq<Route>)
    requires FlagLayout(s)
    ensures Filter(s, (r: Route) => !ShownInNav(r)) == [s[8]] + s[14..]
  {
    var hidden := (r: Route) => !ShownInNav(r);
    FilterBlocks(s, hidden);
    FilterNone(s[..8], hidden);
    FilterNone(s[9..14], hidden);
    FilterAll(s[14..], hidden);
  }

  /** In any list with the registry's flag layout, the navigation keeps the other thirteen, in order. */
  lemma ShownOfLayout(s: seq<Route>)
    requires FlagLayout(s)
    ensures NavRoutes(s) == s[..8] + s[9..14]
  {
    FilterBlocks(s, ShownInNav);
    FilterAll(s[..8], ShownInNav);
    FilterAll(s[9..14], ShownInNav);
    FilterNone(s[14..], ShownInNav);
  }

  /** Exactly five routes are hidden from the navigation. */
  lemma HiddenRoutes()
    ensures Filter(Registry, (r: Route) => !ShownInNav(r)) == [Registry[8]] + Registry[14..]
    ensures |Filter(Registry, (r: Route) => !ShownInNav(r))| == 5
  {
    RegistryLayout();
    HiddenOfLayout(Registry);
  }

  /** The navigation gets the other thirteen routes, in registry order. */
  lemma NavRoutesOfRegistry()
    ensures NavRoutes(Registry) == Registry[..8] + Registry[9..14]
    ensures |NavRoutes(Registry)| == 13
  {
    RegistryLayout();
    ShownOfLayout(Registry);
  }

  /** "/senioren" is the sixth navigation route. */
  lemma SeniorsIsNavRoute()
    ensures |NavRoutes(Registry)| > 5 && NavRoutes(Registry)[5].path == "/senioren"
  {
    NavRoutesOfRegistry();
    assert NavRoutes(Registry)[5] == Registry[5];
  }

  // ---- Language preference ----

  /** `s.substring(0, 2)`. */
  function Prefix2(s: string): (r: string)
    ensures |r| == (if |s| < 2 then |s| else 2)
    ensures r == s[..|r|]
  {
    if |s| < 2 then s else s[..2]
  }

  /**
   * The boot-time language: `localStorage.getItem('language')
   * || navigator.language?.substring(0, 2) || 'de'`. `||` passes over null,
   * undefined and the empty string. The value is not checked against the
   * languages the site offers.
   */
  function BootLanguage(stored: Option<string>, browserLanguage: Option<string>): (r: string)
    ensures r != ""
    ensures Truthy(stored) ==> r == stored.value
    ensures !Truthy(stored) && Truthy(browserLanguage) ==>
      |r| == (if |browserLanguage.value| < 2 then |browserLanguage.value| else 2)
      && r == browserLanguage.value[..|r|]
    ensures !Truthy(stored) && !Truthy(browserLanguage) ==> r == "de"
  {
    if Truthy(stored) then stored.value
    else if browserLanguage.Some? && Prefix2(browserLanguage.value) != "" then Prefix2(browserLanguage.value)
    else "de"
  }

  /** A browser reporting "en-US" gives "en"; "fr-FR" gives "fr", not the default. */
  lemma FirstVisitLanguages()
    ensures BootLanguage(None, Some("en-US")) == "en"
    ensures BootLanguage(None, Some("fr-FR")) == "fr"
    ensures BootLanguage(Some(""), None) == "de"
    ensures BootLanguage(Some("en"), Some("de-DE")) == "en"
  {
    assert "en-US"[..2] == "en";
    assert "fr-FR"[..2] == "fr";
  }

  /** The statements inside `changeLanguage`'s try block that can throw, in execution order. */
  datatype Step = I18nChange | StorageWrite | LangAttribute

  function Rank(s: Step): nat {
    match s
    case I18nChange => 0
    case StorageWrite => 1
    case LangAttribute => 2
  }

  /** Whether `step` completes when the statement `throwsAt` (if any) throws. */
  predicate Completes(step: Step, throwsAt: Option<Step>) {
    throwsAt == None || Rank(step) < Rank(throwsAt.value)
  }

  class AppState {
    /** `currentLang`, the React state passed to the navigation bar. */
    var currentLang: string
    /** The active language of the translation library. */
    var i18nLang: string
    /** How many `languageChanged` events have been dispatched. */
    var languageEvents: nat
    /** How many errors `changeLanguage` has caught and logged. */
    var errorsLogged: nat
    const doc: Document

    /** Before the boot effect runs, `currentLang` is "de". */
    constructor (doc: Document, i18nLang: string)
      ensures this.doc == doc && this.i18nLang == i18nLang
      ensures currentLang == "de" && languageEvents == 0 && errorsLogged == 0
    {
      this.doc := doc;
      this.i18nLang := i18nLang;
      currentLang := "de";
      languageEvents := 0;
      errorsLogged := 0;
    }

    /**
     * `changeLanguage(lang)`. The statements run in order inside one try
     * block; when `throwsAt` names one of them, it and every later statement
     * are skipped and the error is logged, never propagated.
     */
    method ChangeLanguage(lang: string, throwsAt: Option<Step>)
      modifies this, doc
      ensures i18nLang == if Completes(I18nChange, throwsAt) then lang else old(i18nLang)
      ensures currentLang == if Completes(I18nChange, throwsAt) then lang else old(currentLang)
      ensures doc.storage == if Completes(StorageWrite, throwsAt) then old(doc.storage)["language" := lang] else old(doc.storage)
      ensures doc.langAttr == if Completes(LangAttribute, throwsAt) then Some(lang) else old(doc.langAttr)
      ensures languageEvents == old(languageEvents) + (if throwsAt == None then 1 else 0)
      ensures errorsLogged == old(errorsLogged) + (if throwsAt == None then 0 else 1)
      ensures doc.darkClass == old(doc.darkClass) && doc.links == old(doc.links)
      ensures doc.themeColor == old(doc.themeColor)
    {
      if throwsAt == Some(I18nChange) {
        errorsLogged := errorsLogged + 1;
        return;
      }
      i18nLang := lang;
      currentLang := lang;
      if throwsAt == Some(StorageWrite) {
        errorsLogged := errorsLogged + 1;
        return;
      }
      doc.storage := doc.storage["language" := lang];
      if throwsAt == Some(LangAttribute) {
        errorsLogged := errorsLogged + 1;
        return;
      }
      doc.langAttr := Some(lang);
      languageEvents := languageEvents + 1;
    }

    /**
     * The mount effect: resolves the boot language from storage and the
     * browser's reported language, and hands it to `changeLanguage`, which
     * writes it to storage even when it came from the browser.
     */
    method Boot(browserLanguage: Option<string>, throwsAt: Option<Step>)
      modifies this, doc
      ensures var lang := BootLanguage(old(doc.GetItem("language")), browserLanguage);
        && i18nLang == (if Completes(I18nChange, throwsAt) then lang else old(i18nLang))
        && currentLang == (if Completes(I18nChange, throwsAt) then lang else old(currentLang))
        && doc.storage == (if Completes(StorageWrite, throwsAt) then old(doc.storage)["language" := lang] else old(doc.storage))
        && doc.langAttr == (if Completes(LangAttribute, throwsAt) then Some(lang) else old(doc.langAttr))
      ensures languageEvents == old(languageEvents) + (if throwsAt == None then 1 else 0)
      ensures errorsLogged == old(errorsLogged) + (if throwsAt == None then 0 else 1)
      ensures doc.darkClass == old(doc.darkClass) && doc.links == old(doc.links) && doc.themeColor == old(doc.themeColor)
    {
      var savedLang := BootLanguage(doc.GetItem("language"), browserLanguage);
      if savedLang != "" {
        ChangeLanguage(savedLang, throwsAt);
      }
    }
  }

  /** A fault-free `changeLanguage(l)` leaves state, storage and the `lang` attribute all equal to `l`. */
  method ChangeLanguageAgrees(app: AppState, lang: string)
    modifies app, app.doc
    ensures app.currentLang == lang && app.doc.GetItem("language") == Some(lang) && app.doc.langAttr == Some(lang)
  {
    app.ChangeLanguage(lang, None);
  }

  /** A failing storage write leaves `currentLang` updated but the `lang` attribute as it was. */
  method StorageFailureTearsState(app: AppState, lang: string)
    modifies app, app.doc
    ensures app.currentLang == lang && app.doc.langAttr == old(app.doc.langAttr)
    ensures app.doc.storage == old(app.doc.storage)
  {
    app.ChangeLanguage(lang, Some(StorageWrite));
  }
}
