/**
 * The parts of the browser the site reads and writes: `localStorage`, the
 * `dark` class and the `lang` attribute of the document root, the `<link>`
 * elements of the document and the `theme-color` meta element.
 */
module Browser {
  import opened Wrappers

  /** A `<link>` element: its `rel`, `href`, `type` and `sizes` attributes (absent attributes are None). */
  datatype Link = Link(rel: string, href: Option<string>, linkType: Option<string>, sizes: Option<string>)

  class Document {
    /** `localStorage`, key to value. */
    var storage: map<string, string>
    /** Whether the document root carries the `dark` class. */
    var darkClass: bool
    /** The `lang` attribute of the document root. */
    var langAttr: Option<string>
    /** The `<link>` elements of the document, in document order. */
    var links: seq<Link>
    /** Whether a `<meta name="theme-color">` element exists; the site never adds or removes one. */
    const hasThemeColorMeta: bool
    /** The `content` of that element. */
    var themeColor: string

    constructor (storage: map<string, string>, links: seq<Link>, hasThemeColorMeta: bool, themeColor: string)
      ensures this.storage == storage && this.links == links
      ensures this.hasThemeColorMeta == hasThemeColorMeta && this.themeColor == themeColor
      ensures !darkClass && langAttr == None
    {
      this.storage := storage;
      this.links := links;
      this.hasThemeColorMeta := hasThemeColorMeta;
      this.themeColor := themeColor;
      darkClass := false;
      langAttr := None;
    }

    /** `localStorage.getItem(key)`: null (None) when nothing is stored under `key`. */
    function GetItem(key: string): (r: Option<string>)
      reads this
      ensures r.Some? <==> key in storage
      ensures r.Some? ==> r.value == storage[key]
    {
      if key in storage then Some(storage[key]) else None
    }
  }

  /** JavaScript truthiness of `getItem`'s result: null and the empty string are falsy. */
  predicate Truthy(v: Option<string>) {
    v.Some? && v.value != ""
  }
}
