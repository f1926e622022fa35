/**
 * The tab filter the listing pages share: the tab `'all'` shows every item,
 * any other tab the items whose key equals it, in their original order.
 */
module Catalog {
  import opened Lists

  const All := "all"

  /** The test a non-`'all'` tab applies to an item. */
  function InTab<T>(key: T -> string, tab: string): T -> bool {
    x => key(x) == tab
  }

  /** `tab === 'all' ? items : items.filter(x => key(x) === tab)`. */
  function TabFilter<T(==)>(items: seq<T>, tab: string, key: T -> string): (r: seq<T>)
    ensures |r| <= |items|
  {
    if tab == All then items else Filter(items, InTab(key, tab))
  }

  /** The tab `'all'` shows the list unchanged. */
  lemma AllTabShowsEverything<T>(items: seq<T>, key: T -> string)
    ensures TabFilter(items, All, key) == items
  {
  }

  /** Any other tab shows exactly the items with that key. */
  lemma TabMembers<T>(items: seq<T>, tab: string, key: T -> string, x: T)
    requires tab != All
    ensures x in TabFilter(items, tab, key) <==> x in items && key(x) == tab
  {
    FilterMembers(items, InTab(key, tab));
  }

  /**
   * The non-`'all'` tabs partition the list: an item with a key other than
   * `'all'` is shown under its own tab and under no other.
   */
  lemma TabsPartition<T>(items: seq<T>, key: T -> string, x: T, tab: string)
    requires x in items && key(x) != All && tab != All
    ensures x in TabFilter(items, key(x), key)
    ensures x in TabFilter(items, tab, key) <==> tab == key(x)
  {
    TabMembers(items, key(x), key, x);
    TabMembers(items, tab, key, x);
  }

  /** A filtered list is empty exactly when no item carries the tab's key. */
  lemma {:induction false} TabEmptyIff<T>(items: seq<T>, tab: string, key: T -> string)
    requires tab != All
    ensures TabFilter(items, tab, key) == [] <==> forall i :: 0 <= i < |items| ==> key(items[i]) != tab
  {
    if TabFilter(items, tab, key) == [] {
      forall i | 0 <= i < |items|
        ensures key(items[i]) != tab
      {
        TabMembers(items, tab, key, items[i]);
      }
    } else {
      var x := TabFilter(items, tab, key)[0];
      TabMembers(items, tab, key, x);
      var i :| 0 <= i < |items| && items[i] == x;
    }
  }
}
