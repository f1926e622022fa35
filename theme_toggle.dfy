/**
 * The theme toggle button. It keeps its own `darkMode` field and decides from
 * it, independently of the class-based helpers; it never touches the favicon.
 */
module ThemeToggle {
  import opened Wrappers
  import opened Browser
  import opened ThemeUtils

  class ThemeToggleState {
    /** The `darkMode` state field. */
    var darkMode: bool
    const doc: Document

    /** Before the mount effect runs, `darkMode` is false. */
    constructor (doc: Document)
      ensures this.doc == doc && !darkMode
    {
      this.doc := doc;
      darkMode := false;
    }

    /**
     * The mount effect: `darkMode` and the class follow the saved theme, or
     * the system preference when nothing is saved; storage is only read.
     */
    method Mount(systemDarkMode: bool)
      modifies this, doc
      ensures darkMode == DarkPreferred(old(doc.GetItem("theme")), systemDarkMode)
      ensures doc.darkClass == darkMode
      ensures doc.storage == old(doc.storage) && doc.links == old(doc.links)
      ensures doc.langAttr == old(doc.langAttr) && doc.themeColor == old(doc.themeColor)
    {
      var savedTheme := doc.GetItem("theme");
      if savedTheme == Some("dark") || (!Truthy(savedTheme) && systemDarkMode) {
        darkMode := true;
        doc.darkClass := true;
      } else {
        darkMode := false;
        doc.darkClass := false;
      }
    }

    /**
     * `toggleTheme`: decides from `darkMode`, sets the class and storage for
     * the opposite theme and flips the field; links and the meta are untouched.
     */
    method Toggle()
      modifies this, doc
      ensures darkMode == !old(darkMode)
      ensures doc.darkClass == darkMode
      ensures doc.storage == old(doc.storage)["theme" := ThemeName(darkMode)]
      ensures doc.links == old(doc.links) && doc.themeColor == old(doc.themeColor)
      ensures doc.langAttr == old(doc.langAttr)
    {
      if darkMode {
        doc.darkClass := false;
        doc.storage := doc.storage["theme" := "light"];
      } else {
        doc.darkClass := true;
        doc.storage := doc.storage["theme" := "dark"];
      }
      darkMode := !darkMode;
    }

    /** The button's `aria-label`. */
    function AriaLabel(): (r: string)
      reads this
      ensures r == "Switch to light mode" <==> darkMode
      ensures r == "Switch to dark mode" <==> !darkMode
    {
      if darkMode then "Switch to light mode" else "Switch to dark mode"
    }
  }

  /** Two toggles restore `darkMode` and the class. */
  method ToggleTwice(tt: ThemeToggleState)
    modifies tt, tt.doc
    ensures tt.darkMode == old(tt.darkMode)
    ensures tt.doc.darkClass == old(tt.darkMode)
    ensures tt.doc.GetItem("theme") == Some(ThemeName(old(tt.darkMode)))
  {
    tt.Toggle();
    tt.Toggle();
  }

  /**
   * When the class was turned on behind the button's back (by the class-based
   * helper), the button still believes it is light: its first press keeps the
   * class and stores "dark".
   */
  method StaleFieldDisagrees(tt: ThemeToggleState)
    requires tt.doc.darkClass && !tt.darkMode
    modifies tt, tt.doc
    ensures tt.doc.darkClass == old(tt.doc.darkClass)
    ensures tt.doc.GetItem("theme") == Some("dark")
  {
    tt.Toggle();
  }
}
