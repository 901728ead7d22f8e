/** The shared breadcrumb trail: an ordered list of items that pages replace on entry, that
    can be appended to, and that is cut back to a prefix when an earlier item is clicked. */
module BreadcrumbContext {
  import opened Common

  /** Every `onClick` the pages attach to a breadcrumb is a navigation. */
  datatype Action = Navigate(path: string)

  datatype BreadcrumbItem = BreadcrumbItem(
    caption: string,  // the item's `label`
    href: Option<string>,
    icon: Option<string>,
    onClick: Option<Action>)

  const Home := BreadcrumbItem("Dashboard", None, Some("🏠"), None)

  /** `items.slice(0, index + 1)` for any integer `index`, with JavaScript's clamping: an end
      beyond the list stops at its length, a negative end counts back from its length. */
  function SliceThrough<T>(items: seq<T>, index: int): (r: seq<T>)
    ensures |r| <= |items| && r == items[..|r|]
  {
    var end := index + 1;
    var stop :=
      if end < 0 then (if |items| + end < 0 then 0 else |items| + end)
      else if end > |items| then |items|
      else end;
    items[..stop]
  }

  /** Cutting at a position of the list keeps exactly the items up to and including it, so
      the clicked item becomes the last one. */
  lemma SliceInRange<T>(items: seq<T>, index: int)
    requires 0 <= index < |items|
    ensures SliceThrough(items, index) == items[..index + 1]
    ensures SliceThrough(items, index)[index] == items[index]
  {
  }

  /** Cutting at the last position or beyond changes nothing. */
  lemma SliceFromLastIsIdentity<T>(items: seq<T>, index: int)
    requires index >= |items| - 1
    ensures SliceThrough(items, index) == items
  {
  }

  /** Cutting twice at the same non-negative position (or at -1) is the same as cutting
      once. */
  lemma SliceIdempotent<T>(items: seq<T>, index: int)
    requires index >= -1
    ensures SliceThrough(SliceThrough(items, index), index) == SliceThrough(items, index)
  {
  }

  /** Below -1 the JavaScript slice counts from the end, so repeating the cut keeps
      shortening the list: idempotence needs `index >= -1`. */
  lemma SliceNegativeNotIdempotent()
    ensures SliceThrough(SliceThrough([1, 2, 3], -2), -2) != SliceThrough([1, 2, 3], -2)
  {
    assert SliceThrough([1, 2, 3], -2) == [1, 2];
    assert SliceThrough([1, 2], -2) == [1];
  }

  class BreadcrumbStore {
    var breadcrumbs: seq<BreadcrumbItem>

    /** The trail starts as the single Dashboard item. */
    constructor()
      ensures breadcrumbs == [Home]
    {
      breadcrumbs := [Home];
    }

    /** Replaces the whole trail. */
    method SetBreadcrumbs(items: seq<BreadcrumbItem>)
      modifies this
      ensures breadcrumbs == items
    {
      breadcrumbs := items;
    }

    /** Appends one item; the earlier items are untouched. */
    method AddBreadcrumb(item: BreadcrumbItem)
      modifies this
      ensures |breadcrumbs| == |old(breadcrumbs)| + 1
      ensures breadcrumbs[..|old(breadcrumbs)|] == old(breadcrumbs)
      ensures breadcrumbs[|breadcrumbs| - 1] == item
    {
      breadcrumbs := breadcrumbs + [item];
    }

    /** Cuts the trail back to the items up to `index`. */
    method RemoveBreadcrumb(index: int)
      modifies this
      ensures breadcrumbs == SliceThrough(old(breadcrumbs), index)
      ensures 0 <= index < |old(breadcrumbs)| ==> breadcrumbs == old(breadcrumbs)[..index + 1]
      ensures index >= |old(breadcrumbs)| - 1 ==> breadcrumbs == old(breadcrumbs)
    {
      breadcrumbs := SliceThrough(breadcrumbs, index);
    }
  }
}
