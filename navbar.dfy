/** The navigation bar's derived values: the cart badge count, the active
    link, the account link, and the mobile-menu and scroll-to-top flags. */
module Navbar {
  import opened Common
  import opened Commerce

  datatype NavLink = NavLink(name: string, href: string)

  const NavLinks: seq<NavLink> := [
    NavLink("Produkte", "/"),
    NavLink("Über uns", "#about"),
    NavLink("Kontakt", "#contact")
  ]

  /** `items.reduce((acc, item) => acc + item.quantity, acc)`: a left fold. */
  function Reduce(items: seq<LineItem>, acc: nat): (r: nat)
    ensures r >= acc
    ensures items != [] && items[0].quantity > 0 ==> r > acc
    decreases |items|
  {
    if items == [] then acc else Reduce(items[1..], acc + items[0].quantity)
  }

  /** The total quantity of a list of line items. */
  function Sum(items: seq<LineItem>): nat
    decreases |items|
  {
    if items == [] then 0 else items[0].quantity + Sum(items[1..])
  }

  /** `cart?.items?.reduce(..., 0) || 0`: the sum of the line quantities, and
      0 without a cart. */
  function ItemCount(cart: Option<Cart>): (r: nat)
    ensures cart.None? ==> r == 0
    ensures cart.Some? ==> r == Sum(cart.value.items)
  {
    match cart
    case None => 0
    case Some(c) =>
      ReduceIsSum(c.items, 0);
      Reduce(c.items, 0)
  }

  predicate ShowBadge(itemCount: nat) {
    itemCount > 0
  }

  lemma {:induction false} ReduceIsSum(items: seq<LineItem>, acc: nat)
    ensures Reduce(items, acc) == acc + Sum(items)
    decreases |items|
  {
    if items != [] {
      ReduceIsSum(items[1..], acc + items[0].quantity);
    }
  }

  lemma {:induction false} SumPositive(items: seq<LineItem>)
    ensures Sum(items) > 0 <==> exists i :: 0 <= i < |items| && items[i].quantity > 0
    decreases |items|
  {
    if items != [] {
      SumPositive(items[1..]);
      if items[0].quantity == 0 && Sum(items) > 0 {
        var i :| 0 <= i < |items[1..]| && items[1..][i].quantity > 0;
        assert items[i + 1].quantity > 0;
      }
      if exists i :: 0 <= i < |items| && items[i].quantity > 0 {
        var i :| 0 <= i < |items| && items[i].quantity > 0;
        if i > 0 {
          assert items[1..][i - 1].quantity > 0;
        }
      }
    }
  }

  /** The badge appears exactly when some line of the cart has a positive quantity. */
  lemma BadgeShown(cart: Option<Cart>)
    ensures ShowBadge(ItemCount(cart)) <==> cart.Some? && exists i :: 0 <= i < |cart.value.items| && cart.value.items[i].quantity > 0
  {
    if cart.Some? {
      SumPositive(cart.value.items);
    }
  }

  /** A link is highlighted when the current path is exactly its href. */
  predicate IsActive(pathname: string, href: string) {
    pathname == href
  }

  /** The links' targets are distinct, so at most one is highlighted. */
  lemma AtMostOneActive(pathname: string, i: nat, j: nat)
    requires i < |NavLinks| && j < |NavLinks|
    requires IsActive(pathname, NavLinks[i].href) && IsActive(pathname, NavLinks[j].href)
    ensures i == j
  {
    assert NavLinks[0].href == "/" && NavLinks[1].href == "#about" && NavLinks[2].href == "#contact";
    assert "/" != "#about" && "/" != "#contact" && "#about" != "#contact";
  }

  datatype AccountLink = AccountLink(href: string, text: string)

  /** The account link, for a signed-in customer or a visitor. */
  function AccountLinkFor(hasCustomer: bool): (l: AccountLink)
    ensures l.href == "/account" <==> l.text == "Mein Konto"
    ensures hasCustomer <==> l.href == "/account"
    ensures !hasCustomer ==> l == AccountLink("/account/login", "Partner Login")
  {
    if hasCustomer then AccountLink("/account", "Mein Konto") else AccountLink("/account/login", "Partner Login")
  }

  const ScrollTopThreshold: int := 400

  /** The scroll-to-top button is shown past 400 pixels of scrolling. */
  predicate ShowScrollTop(scrollY: int) {
    scrollY > ScrollTopThreshold
  }

  /** The bar's event-driven flags. */
  class NavbarState {
    var pathname: string
    var isOpen: bool
    var showScrollTop: bool

    constructor (pathname: string)
      ensures this.pathname == pathname && !isOpen && !showScrollTop
    {
      this.pathname := pathname;
      isOpen := false;
      showScrollTop := false;
    }

    /** The mobile toggle button. */
    method Toggle()
      modifies this`isOpen
      ensures isOpen == !old(isOpen)
    {
      isOpen := !isOpen;
    }

    /** A route change closes the mobile menu. */
    method Navigate(path: string)
      modifies this`pathname, this`isOpen
      ensures pathname == path
      ensures isOpen == (old(isOpen) && path == old(pathname))
    {
      if path != pathname {
        isOpen := false;
      }
      pathname := path;
    }

    /** A click on a link of the mobile menu closes it. */
    method LinkClicked()
      modifies this`isOpen
      ensures !isOpen
    {
      isOpen := false;
    }

    method Scrolled(scrollY: int)
      modifies this`showScrollTop
      ensures showScrollTop == ShowScrollTop(scrollY)
    {
      showScrollTop := scrollY > ScrollTopThreshold;
    }
  }
}
