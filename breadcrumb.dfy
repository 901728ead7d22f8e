/** The breadcrumb bar: which items are rendered as buttons, and what a click does to the
    shared trail. */
module Breadcrumb {
  import opened Common
  import opened BreadcrumbContext

  /** An item is a button when it has a non-empty `href`, an `onClick`, or is not the last
      item; otherwise it is plain text and cannot be clicked. */
  predicate IsClickable(items: seq<BreadcrumbItem>, index: nat)
    requires index < |items|
  {
    Truthy(items[index].href) || items[index].onClick.Some? || index < |items| - 1
  }

  /** Every item except the last is clickable; the last one only when it carries an `href`
      or an `onClick`. */
  lemma ClickableRule(items: seq<BreadcrumbItem>, index: nat)
    requires index < |items|
    ensures index < |items| - 1 ==> IsClickable(items, index)
    ensures index == |items| - 1 ==>
              (IsClickable(items, index) <==> Truthy(items[index].href) || items[index].onClick.Some?)
  {
  }

  /** `handleBreadcrumbClick`: run the item's `onClick` if it has one (an `href` alone does
      nothing here), then cut the trail back to the clicked item. */
  method HandleBreadcrumbClick(store: BreadcrumbStore, index: nat) returns (actions: seq<Action>)
    requires index < |store.breadcrumbs|
    modifies store
    ensures actions == (match old(store.breadcrumbs[index]).onClick
                        case Some(a) => [a]
                        case None => [])
    ensures store.breadcrumbs == old(store.breadcrumbs)[..index + 1]
    ensures store.breadcrumbs[|store.breadcrumbs| - 1] == old(store.breadcrumbs[index])
    ensures index == |old(store.breadcrumbs)| - 1 ==> store.breadcrumbs == old(store.breadcrumbs)
  {
    var item := store.breadcrumbs[index];
    actions := [];
    if item.onClick.Some? {
      actions := [item.onClick.value];
    }
    store.RemoveBreadcrumb(index);
  }
}
