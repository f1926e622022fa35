/**
 * The theme helpers: resolving the theme at start-up, toggling it from the
 * document class, following the system preference while nothing is stored,
 * and replacing the favicon links of the document.
 */
module ThemeUtils {
  import opened Wrappers
  import opened Lists
  import opened Text
  import opened Browser

  /**
   * The dark/light decision: a stored "dark" selects dark, any other stored
   * non-empty value selects light, and with nothing (or "") stored the system
   * preference decides.
   */
  function DarkPreferred(saved: Option<string>, systemDark: bool): (r: bool)
    ensures Truthy(saved) ==> (r <==> saved.value == "dark")
    ensures !Truthy(saved) ==> (r <==> systemDark)
  {
    saved == Some("dark") || (!Truthy(saved) && systemDark)
  }

  /** The theme name returned and stored for a dark flag. */
  function ThemeName(dark: bool): (r: string)
    ensures r == "dark" <==> dark
    ensures r == "light" <==> !dark
  {
    if dark then "dark" else "light"
  }

  /** The `content` of the `theme-color` meta element for each theme. */
  function ThemeColor(dark: bool): string {
    if dark then "#092533" else "#2D6E7E"
  }

  /** ASCII lower-casing of one character. */
  function AsciiLowerChar(c: char): (r: char)
    ensures 'A' <= c <= 'Z' ==> r as int == c as int + 32
    ensures !('A' <= c <= 'Z') ==> r == c
  {
    if 'A' <= c <= 'Z' then (c as int + 32) as char else c
  }

  /** ASCII lower-casing: HTML compares `rel` values ASCII case-insensitively. */
  function AsciiLower(s: string): (r: string)
    ensures |r| == |s|
    ensures forall i :: 0 <= i < |s| ==> r[i] == AsciiLowerChar(s[i])
  {
    seq(|s|, i requires 0 <= i < |s| => AsciiLowerChar(s[i]))
  }

  /**
   * A link the update removes: selected by `rel*="icon"` (in any ASCII case,
   * since `rel` is a case-insensitive attribute) and with an `href` that
   * includes "favicon" (case-sensitively).
   */
  predicate IsFaviconLink(l: Link) {
    Contains(AsciiLower(l.rel), "icon") && l.href.Some? && Contains(l.href.value, "favicon")
  }

  /** The links the removal loop leaves in place, in document order. */
  function Kept(links: seq<Link>): seq<Link> {
    Filter(links, (l: Link) => !IsFaviconLink(l))
  }

  /** The three links appended, in order: the SVG icon, the theme-specific alternate, the ICO fallback. */
  function NewFavicons(dark: bool): (r: seq<Link>)
    ensures |r| == 3
    ensures r[0].href == Some("/favicon.svg") && r[2].href == Some("/favicon.ico")
    ensures r[1].href == Some(if dark then "/images/favicon/favicon-dark.svg" else "/images/favicon/favicon-light.svg")
  {
    [
      Link("icon", Some("/favicon.svg"), Some("image/svg+xml"), None),
      Link("alternate icon",
           Some(if dark then "/images/favicon/favicon-dark.svg" else "/images/favicon/favicon-light.svg"),
           Some("image/svg+xml"), None),
      Link("icon", Some("/favicon.ico"), None, Some("any"))
    ]
  }

  /** The link list after an update with flag `dark`. */
  function Updated(links: seq<Link>, dark: bool): seq<Link> {
    Kept(links) + NewFavicons(dark)
  }

  /** `href.includes("favicon")` for a path whose "favicon" starts at `at`. */
  lemma FaviconPath(href: string, at: nat)
    requires at + 7 <= |href|
    requires href[at] == 'f' && href[at + 1] == 'a' && href[at + 2] == 'v' && href[at + 3] == 'i'
    requires href[at + 4] == 'c' && href[at + 5] == 'o' && href[at + 6] == 'n'
    ensures Contains(href, "favicon")
  {
    assert href[at..][..7] == "favicon";
    ContainsAt(href, "favicon", at);
  }

  /** `rel*="icon"` for both rel values used. */
  lemma IconRels()
    ensures Contains(AsciiLower("icon"), "icon") && Contains(AsciiLower("alternate icon"), "icon")
  {
    var icon := "icon";
    assert AsciiLower(icon) == icon;
    ContainsAt(icon, "icon", 0);
    var alt := "alternate icon";
    assert AsciiLower(alt) == alt;
    assert alt[10..][..4] == "icon";
    ContainsAt(alt, "icon", 10);
  }

  /** An upper-case `rel="ICON"` favicon is selected as well. */
  lemma UpperCaseRelIsFavicon()
    ensures IsFaviconLink(Link("ICON", Some("/favicon.ico"), None, None))
  {
    var rel := "ICON";
    assert AsciiLower(rel) == "icon";
    ContainsAt("icon", "icon", 0);
    IcoHref();
  }

  /** Every `href` appended includes "favicon". */
  lemma SvgHref()
    ensures Contains("/favicon.svg", "favicon")
  {
    FaviconPath("/favicon.svg", 1);
  }

  lemma IcoHref()
    ensures Contains("/favicon.ico", "favicon")
  {
    FaviconPath("/favicon.ico", 1);
  }

  lemma DarkHref()
    ensures Contains("/images/favicon/favicon-dark.svg", "favicon")
  {
    FaviconPath("/images/favicon/favicon-dark.svg", 8);
  }

  lemma LightHref()
    ensures Contains("/images/favicon/favicon-light.svg", "favicon")
  {
    FaviconPath("/images/favicon/favicon-light.svg", 8);
  }

  /** Every appended link is itself a favicon link, so a later update removes it. */
  lemma NewFaviconsAreFavicons(dark: bool)
    ensures forall i :: 0 <= i < 3 ==> IsFaviconLink(NewFavicons(dark)[i])
  {
    IconRels();
    SvgHref();
    IcoHref();
    DarkHref();
    LightHref();
  }

  /** A link survives the removal exactly when it is not a favicon link. */
  lemma KeptMembers(links: seq<Link>, l: Link)
    ensures l in Kept(links) <==> l in links && !IsFaviconLink(l)
  {
    FilterMembers(links, (x: Link) => !IsFaviconLink(x));
  }

  /** Updates do not accumulate: the last flag alone decides the result. */
  lemma UpdateIdempotent(links: seq<Link>, d1: bool, d2: bool)
    ensures Updated(Updated(links, d1), d2) == Updated(links, d2)
  {
    var p := (l: Link) => !IsFaviconLink(l);
    FilterConcat(Kept(links), NewFavicons(d1), p);
    FilterIdempotent(links, p);
    NewFaviconsAreFavicons(d1);
    FilterNone(NewFavicons(d1), p);
  }

  /** The `forEach` over the selected links: walks the list and keeps each link that is not a favicon link. */
  method RemoveFavicons(links: seq<Link>) returns (kept: seq<Link>)
    ensures kept == Kept(links)
  {
    ghost var p := (l: Link) => !IsFaviconLink(l);
    kept := [];
    var i := 0;
    while i < |links|
      invariant 0 <= i <= |links|
      invariant kept == Kept(links[..i])
    {
      assert links[..i + 1] == links[..i] + [links[i]];
      FilterConcat(links[..i], [links[i]], p);
      assert Filter([links[i]], p) == if p(links[i]) then [links[i]] else [] by {
        assert [links[i]][1..] == [];
      }
      if !IsFaviconLink(links[i]) {
        kept := kept + [links[i]];
      }
      i := i + 1;
    }
    assert links[..i] == links;
  }

  /**
   * `updateFavicon(isDarkMode)`: removes the favicon links, appends the three
   * new links and sets the `theme-color` meta when it exists.
   */
  method UpdateFavicon(doc: Document, isDarkMode: bool)
    modifies doc
    ensures doc.links == Updated(old(doc.links), isDarkMode)
    ensures doc.themeColor == if doc.hasThemeColorMeta then ThemeColor(isDarkMode) else old(doc.themeColor)
    ensures doc.storage == old(doc.storage) && doc.darkClass == old(doc.darkClass)
    ensures doc.langAttr == old(doc.langAttr)
  {
    var kept := RemoveFavicons(doc.links);
    doc.links := kept + NewFavicons(isDarkMode);
    if doc.hasThemeColorMeta {
      doc.themeColor := ThemeColor(isDarkMode);
    }
  }

  /**
   * `initializeTheme()`: sets the class and the favicon from the resolved
   * theme and returns its name; storage is only read.
   */
  method InitializeTheme(doc: Document, prefersDark: bool) returns (theme: string)
    modifies doc
    ensures theme == ThemeName(DarkPreferred(old(doc.GetItem("theme")), prefersDark))
    ensures doc.darkClass <==> theme == "dark"
    ensures doc.links == Updated(old(doc.links), doc.darkClass)
    ensures doc.themeColor == if doc.hasThemeColorMeta then ThemeColor(doc.darkClass) else old(doc.themeColor)
    ensures doc.storage == old(doc.storage) && doc.langAttr == old(doc.langAttr)
  {
    var savedTheme := doc.GetItem("theme");
    var isDarkMode := DarkPreferred(savedTheme, prefersDark);
    if isDarkMode {
      doc.darkClass := true;
      UpdateFavicon(doc, true);
      theme := "dark";
    } else {
      doc.darkClass := false;
      UpdateFavicon(doc, false);
      theme := "light";
    }
  }

  /**
   * `toggleTheme()`: decides from the class, not from storage; flips the
   * class, stores the new theme, updates the favicon and returns the theme.
   */
  method ToggleTheme(doc: Document) returns (theme: string)
    modifies doc
    ensures doc.darkClass == !old(doc.darkClass)
    ensures theme == ThemeName(doc.darkClass)
    ensures doc.storage == old(doc.storage)["theme" := theme]
    ensures doc.GetItem("theme") == Some(theme)
    ensures doc.links == Updated(old(doc.links), doc.darkClass)
    ensures doc.themeColor == if doc.hasThemeColorMeta then ThemeColor(doc.darkClass) else old(doc.themeColor)
    ensures doc.langAttr == old(doc.langAttr)
  {
    var isDarkMode := doc.darkClass;
    if isDarkMode {
      doc.darkClass := false;
      doc.storage := doc.storage["theme" := "light"];
      UpdateFavicon(doc, false);
      theme := "light";
    } else {
      doc.darkClass := true;
      doc.storage := doc.storage["theme" := "dark"];
      UpdateFavicon(doc, true);
      theme := "dark";
    }
  }

  /**
   * The `change` handler of the colour-scheme media query: follows the system
   * only while no theme is stored; otherwise nothing changes.
   */
  method OnSystemChange(doc: Document, matches: bool)
    modifies doc
    ensures Truthy(old(doc.GetItem("theme"))) ==>
      doc.darkClass == old(doc.darkClass) && doc.links == old(doc.links) && doc.themeColor == old(doc.themeColor)
    ensures !Truthy(old(doc.GetItem("theme"))) ==>
      doc.darkClass == matches && doc.links == Updated(old(doc.links), matches) &&
      doc.themeColor == if doc.hasThemeColorMeta then ThemeColor(matches) else old(doc.themeColor)
    ensures doc.storage == old(doc.storage) && doc.langAttr == old(doc.langAttr)
  {
    var savedTheme := doc.GetItem("theme");
    if !Truthy(savedTheme) {
      if matches {
        doc.darkClass := true;
        UpdateFavicon(doc, true);
      } else {
        doc.darkClass := false;
        UpdateFavicon(doc, false);
      }
    }
  }

  /** Two toggles restore the class and leave the links as one update with the original theme would. */
  method ToggleTwice(doc: Document) returns (first: string, second: string)
    modifies doc
    ensures doc.darkClass == old(doc.darkClass)
    ensures first != second && doc.GetItem("theme") == Some(second)
    ensures doc.links == Updated(old(doc.links), old(doc.darkClass))
    ensures doc.themeColor == if doc.hasThemeColorMeta then ThemeColor(old(doc.darkClass)) else old(doc.themeColor)
  {
    ghost var links0 := doc.links;
    first := ToggleTheme(doc);
    second := ToggleTheme(doc);
    UpdateIdempotent(links0, !doc.darkClass, doc.darkClass);
  }

  /** Once the user has stored a theme, system changes no longer alter the class. */
  method StoredThemeIgnoresSystem(doc: Document, matches: bool)
    modifies doc
    ensures doc.darkClass == !old(doc.darkClass)
  {
    var theme := ToggleTheme(doc);
    OnSystemChange(doc, matches);
  }
}
