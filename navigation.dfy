/** The navigation bar (src/components/Navigation.tsx): a mobile-menu flag, the
    section links, and the click handler that scrolls to the section named by a
    link's `href` and then closes the menu.  The page's element ids stand in for
    `document.getElementById`; `isDesktop` is the media query's value. */
module Navigation {
  import opened JsText
  import opened Wrappers

  /** A link of `navLinks`; `text` is its `label`. */
  datatype NavLink = NavLink(text: string, href: string)

  const NavLinks: seq<NavLink> := [
    NavLink("About", "#about"),
    NavLink("Projects", "#projects"),
    NavLink("Experience", "#experience"),
    NavLink("Education", "#education"),
    NavLink("Skills", "#skills"),
    NavLink("Contact", "#contact")
  ]

  /** `href.substring(1)`. */
  function TargetId(href: string): (id: string)
    ensures |href| >= 1 ==> href == [href[0]] + id
    ensures href == "" ==> id == ""
  {
    Substring(href, 1)
  }

  /** Every section link is `#` followed by the id it scrolls to, and no target
      id is empty. */
  lemma NavLinksRoundTrip()
    ensures forall l :: l in NavLinks ==> "#" + TargetId(l.href) == l.href && TargetId(l.href) != ""
  {
    forall l | l in NavLinks
      ensures "#" + TargetId(l.href) == l.href && TargetId(l.href) != ""
    {
      assert |l.href| >= 2 && l.href[0] == '#';
      assert TargetId(l.href) == l.href[1..];
    }
  }

  /** `document.getElementById(id)` is non-null: an element with that id exists
      (the empty id never matches). */
  predicate ElementFound(pageIds: set<string>, id: string) {
    id != "" && id in pageIds
  }

  /** The menu flag after a link click. */
  function MenuAfterClick(menuOpen: bool, href: string, pageIds: set<string>): (r: bool)
    ensures ElementFound(pageIds, TargetId(href)) ==> !r
    ensures !ElementFound(pageIds, TargetId(href)) ==> r == menuOpen
  {
    if ElementFound(pageIds, TargetId(href)) then false else menuOpen
  }

  /** A click on a section link whose section is on the page always leaves the
      menu closed. */
  lemma SectionClickClosesMenu(menuOpen: bool, l: NavLink, pageIds: set<string>)
    requires l in NavLinks && l.href[1..] in pageIds
    ensures !MenuAfterClick(menuOpen, l.href, pageIds)
  {
    NavLinksRoundTrip();
    assert l.href == "#" + TargetId(l.href);
    assert TargetId(l.href) == l.href[1..];
  }

  /** The mobile menu is rendered only off desktop and while open. */
  predicate MobileMenuShown(isDesktop: bool, menuOpen: bool) {
    !isDesktop && menuOpen
  }

  /** After a link click the mobile menu is still rendered exactly when the
      viewport is not desktop, the menu was open, and the target was missing; a
      desktop viewport never renders it. */
  lemma MenuShownAfterClick(isDesktop: bool, menuOpen: bool, href: string, pageIds: set<string>)
    ensures MobileMenuShown(isDesktop, MenuAfterClick(menuOpen, href, pageIds)) <==>
              !isDesktop && menuOpen && !ElementFound(pageIds, TargetId(href))
    ensures isDesktop ==> !MobileMenuShown(isDesktop, menuOpen)
  {
  }

  class NavigationState {
    var isMobileMenuOpen: bool

    /** The menu starts closed. */
    constructor ()
      ensures !isMobileMenuOpen
    {
      isMobileMenuOpen := false;
    }

    /** The menu button. */
    method ToggleMenu()
      modifies this
      ensures isMobileMenuOpen == !old(isMobileMenuOpen)
    {
      isMobileMenuOpen := !isMobileMenuOpen;
    }

    /** `handleNavClick`: the id scrolled to, if its element exists, and the menu
        closed in that case only. */
    method HandleNavClick(href: string, pageIds: set<string>) returns (scrolledTo: Option<string>)
      modifies this
      ensures scrolledTo == (if ElementFound(pageIds, TargetId(href)) then Some(TargetId(href)) else None)
      ensures isMobileMenuOpen == MenuAfterClick(old(isMobileMenuOpen), href, pageIds)
    {
      var targetId := Substring(href, 1);
      if ElementFound(pageIds, targetId) {
        scrolledTo := Some(targetId);
        isMobileMenuOpen := false;
      } else {
        scrolledTo := None;
      }
    }
  }
}
