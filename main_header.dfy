/** The storefront header: it is not rendered on the shadow pages, it marks the navigation
    link whose target is the current path, and its mobile menu opens and closes. */
module MainHeader {
  import opened Common
  import Middleware

  /** A navigation link: its target and its text. */
  datatype NavItem = NavItem(href: string, text: string)

  const SHADOW_PREFIX := "/shadow"

  const NAV_ITEMS: seq<NavItem> := [
    NavItem("/products", "PRODUCTS"),
    NavItem("/about", "ABOUT"),
    NavItem("/account", "ACCOUNT"),
    NavItem("/cart", "CART")
  ]

  /** The header renders unless the path starts with "/shadow". */
  predicate HeaderVisible(pathname: string) {
    !StartsWith(pathname, SHADOW_PREFIX)
  }

  /** A link is highlighted when the path is exactly its target. */
  predicate IsActive(pathname: string, item: NavItem) {
    pathname == item.href
  }

  /** The links highlighted for a path, in menu order. */
  function ActiveItems(pathname: string): (r: seq<NavItem>)
    ensures |r| <= 1
    ensures forall item :: item in r <==> item in NAV_ITEMS && IsActive(pathname, item)
  {
    Filter(NAV_ITEMS, (item: NavItem) => IsActive(pathname, item))
  }

  /** The four targets are distinct, so no path highlights two links. */
  lemma AtMostOneActive(pathname: string)
    ensures forall i, j :: 0 <= i < j < |NAV_ITEMS| ==>
              !(IsActive(pathname, NAV_ITEMS[i]) && IsActive(pathname, NAV_ITEMS[j]))
  {
  }

  /** The header is hidden on exactly the pages from which the middleware redirects a
      visitor without cookies, and it is shown on every page its own links lead to. */
  lemma {:induction false} HiddenExactlyWhereGuarded(url: Middleware.Url)
    ensures !HeaderVisible(url.pathname) <==> Middleware.Guard(url, map[]).Redirect?
    ensures forall k :: 0 <= k < |NAV_ITEMS| ==> HeaderVisible(NAV_ITEMS[k].href)
  {
    assert !Middleware.IsMember(map[]);
    forall k | 0 <= k < |NAV_ITEMS| ensures HeaderVisible(NAV_ITEMS[k].href) {
      var h := NAV_ITEMS[k].href;
      if |h| >= |SHADOW_PREFIX| {
        assert h[1] != SHADOW_PREFIX[1];
      }
    }
  }

  /** The mobile menu's `open` flag. */
  class Menu {
    var open: bool

    constructor ()
      ensures !open
    {
      open := false;
    }

    /** `toggleMenu`: the burger button flips the flag. */
    method ToggleMenu()
      modifies this
      ensures open == !old(open)
    {
      open := !open;
    }

    /** `closeMenu`: the overlay and every link in the menu close it. */
    method CloseMenu()
      modifies this
      ensures !open
    {
      open := false;
    }
  }
}
