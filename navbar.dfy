/**
 * The navigation bar: desktop dropdown items that open one at a time, a
 * mobile menu opened by a hamburger toggle, and two classes on the bar
 * itself (`site-nav--menu-open` and `site-nav--scrolled`) recomputed from
 * that state and from where the bottom of the hero region currently is.
 *
 * Every handler that recomputes the bar's classes takes the hero's
 * bounding-box bottom (`heroBottom`, in pixels, negative once the hero has
 * scrolled above the viewport) as an input, and the resize debounce also
 * takes the viewport width; the resize event itself only re-arms the
 * debounce and takes nothing. Elements the
 * script looks up once may be missing from the page; `Page` records which
 * exist, and the handlers return early exactly where the script does.
 */
module Navbar {
  import opened Wrappers

  /** Viewport width above which the desktop layout applies, in pixels. */
  const MobileBreakpoint: int := 1100

  /** Which of the navbar, the hero, the mobile links and the mobile toggle exist. */
  datatype Page = Page(hasNavbar: bool, hasHero: bool, hasLinks: bool, hasToggle: bool)

  /** The accordion rule: no two items are open at once. */
  predicate AtMostOneOpen(open: seq<bool>) {
    forall i, j :: 0 <= i < |open| && 0 <= j < |open| && open[i] && open[j] ==> i == j
  }

  /** Some item carries `is-open`. */
  predicate AnyOpen(open: seq<bool>) {
    exists i :: 0 <= i < |open| && open[i]
  }

  /**
   * Whether updateNavbarBackground sets `site-nav--menu-open`: some dropdown
   * or the mobile menu is open, and the hero's bottom is still in view.
   */
  predicate ShowsMenuOpen(page: Page, open: seq<bool>, linksActive: bool, heroBottom: int) {
    (AnyOpen(open) || (page.hasLinks && linksActive)) && page.hasHero && heroBottom >= 0
  }

  /** The navigation menu state, one flag per DOM class the script toggles. */
  class Menu {
    const page: Page
    /** `is-open` on each `.site-nav-item`. */
    const open: array<bool>
    /** `is-active` on the mobile links and on the toggle. */
    var mobileLinksActive: bool
    var toggleActive: bool
    /** The two classes on the navbar. */
    var menuOpenClass: bool
    var scrolledClass: bool
    /** The single-slot resize debounce. */
    var resizePending: bool

    ghost predicate Valid()
      reads this, open
    {
      && AtMostOneOpen(open[..])
      && toggleActive == mobileLinksActive
      && (!(page.hasLinks && page.hasToggle) ==> !mobileLinksActive)
      && (!page.hasNavbar ==> !menuOpenClass && !scrolledClass)
      && (!page.hasHero ==> !menuOpenClass)
    }

    /** `site-nav--menu-open` agrees with the current state and `heroBottom`. */
    ghost predicate BackgroundUpToDate(heroBottom: int)
      reads this, open
    {
      menuOpenClass == (page.hasNavbar && ShowsMenuOpen(page, open[..], mobileLinksActive, heroBottom))
    }

    /**
     * The page once DOMContentLoaded has run: no item open, the mobile menu
     * closed (the markup carries none of these classes) and the scroll state
     * checked once.
     */
    constructor (page: Page, itemCount: nat, heroBottom: int)
      ensures Valid() && this.page == page && fresh(open) && open.Length == itemCount
      ensures forall i :: 0 <= i < itemCount ==> !open[i]
      ensures !mobileLinksActive && !toggleActive && !resizePending && !menuOpenClass
      ensures scrolledClass == (page.hasNavbar && page.hasHero && heroBottom < 0)
    {
      this.page := page;
      open := new bool[itemCount](_ => false);
      mobileLinksActive, toggleActive := false, false;
      menuOpenClass, scrolledClass := false, false;
      resizePending := false;
      new;
      HandleScrollState(heroBottom);
    }

    method UpdateNavbarBackground(heroBottom: int)
      requires Valid()
      modifies this`menuOpenClass
      ensures Valid()
      ensures page.hasNavbar ==> BackgroundUpToDate(heroBottom)
      ensures !page.hasNavbar ==> menuOpenClass == old(menuOpenClass)
    {
      if !page.hasNavbar {
        return;
      }
      var isAnyMenuOpen := exists i | 0 <= i < open.Length :: open[i];
      assert isAnyMenuOpen == AnyOpen(open[..]) by {
        if isAnyMenuOpen {
          var i :| 0 <= i < open.Length && open[i];
          assert open[..][i];
        }
      }
      var isMobileMenuOpen := page.hasLinks && mobileLinksActive;
      var isInHero := page.hasHero && heroBottom >= 0;
      menuOpenClass := (isAnyMenuOpen || isMobileMenuOpen) && isInHero;
    }

    method CloseAllMenus(heroBottom: int)
      requires Valid()
      modifies open, this`menuOpenClass
      ensures Valid() && BackgroundUpToDate(heroBottom)
      ensures forall i :: 0 <= i < open.Length ==> !open[i]
    {
      for i := 0 to open.Length
        modifies open
        invariant forall k :: 0 <= k < i ==> !open[k]
        invariant forall k :: i <= k < open.Length ==> open[k] == old(open[k])
      {
        open[i] := false;
      }
      UpdateNavbarBackground(heroBottom);
    }

    method CloseMobileMenu(heroBottom: int)
      requires Valid()
      modifies this`mobileLinksActive, this`toggleActive, this`menuOpenClass
      ensures Valid() && !mobileLinksActive && !toggleActive
      ensures page.hasLinks && page.hasToggle ==> BackgroundUpToDate(heroBottom)
      ensures !(page.hasLinks && page.hasToggle) ==> menuOpenClass == old(menuOpenClass)
    {
      if !page.hasLinks || !page.hasToggle {
        return;
      }
      mobileLinksActive := false;
      toggleActive := false;
      UpdateNavbarBackground(heroBottom);
    }

    method HandleScrollState(heroBottom: int)
      requires Valid()
      modifies this`scrolledClass, this`menuOpenClass
      ensures Valid() && BackgroundUpToDate(heroBottom)
      ensures page.hasNavbar && page.hasHero ==> scrolledClass == (heroBottom < 0)
      ensures !(page.hasNavbar && page.hasHero) ==> scrolledClass == old(scrolledClass)
    {
      if !page.hasNavbar || !page.hasHero {
        return;
      }
      if heroBottom < 0 {
        scrolledClass := true;
      } else {
        scrolledClass := false;
      }
      UpdateNavbarBackground(heroBottom);
    }

    /**
     * A click on a dropdown toggle; `item` is the `.site-nav-item` enclosing
     * it, if any. All items are closed first; this one is then reopened only
     * if it was closed, so the items behave as an accordion.
     */
    method DropdownToggleClick(item: Option<int>, heroBottom: int)
      requires Valid()
      requires item.Some? ==> 0 <= item.value < open.Length
      modifies open, this`menuOpenClass
      ensures Valid()
      ensures item.None? ==> open[..] == old(open[..]) && menuOpenClass == old(menuOpenClass)
      ensures item.Some? ==>
        && (forall j :: 0 <= j < open.Length ==> open[j] == (j == item.value && !old(open[item.value])))
        && BackgroundUpToDate(heroBottom)
    {
      if item.None? {
        return;
      }
      var k := item.value;
      var isCurrentlyOpen := open[k];
      CloseAllMenus(heroBottom);
      if !isCurrentlyOpen {
        open[k] := true;
      }
      UpdateNavbarBackground(heroBottom);
    }

    /** A click on a regular nav link, the partner button, or a link inside a dropdown. */
    method NavLinkClick(heroBottom: int)
      requires Valid()
      modifies open, this`menuOpenClass
      ensures Valid() && BackgroundUpToDate(heroBottom)
      ensures forall i :: 0 <= i < open.Length ==> !open[i]
    {
      CloseAllMenus(heroBottom);
      UpdateNavbarBackground(heroBottom);
    }

    /** The document click listener of the dropdowns: a click outside every nav item closes them. */
    method OutsideItemClick(insideNavItem: bool, heroBottom: int)
      requires Valid()
      modifies open, this`menuOpenClass
      ensures Valid()
      ensures insideNavItem ==> open[..] == old(open[..]) && menuOpenClass == old(menuOpenClass)
      ensures !insideNavItem ==> (forall i :: 0 <= i < open.Length ==> !open[i]) && BackgroundUpToDate(heroBottom)
    {
      if !insideNavItem {
        CloseAllMenus(heroBottom);
        UpdateNavbarBackground(heroBottom);
      }
    }

    /** The hamburger toggle: flips the toggle's and the links' `is-active` together. */
    method MobileToggleClick(heroBottom: int)
      requires Valid()
      modifies this`mobileLinksActive, this`toggleActive, this`menuOpenClass
      ensures Valid()
      ensures page.hasLinks && page.hasToggle ==>
        && mobileLinksActive == !old(mobileLinksActive)
        && toggleActive == !old(toggleActive)
        && BackgroundUpToDate(heroBottom)
      ensures !(page.hasLinks && page.hasToggle) ==>
        mobileLinksActive == old(mobileLinksActive) && menuOpenClass == old(menuOpenClass)
    {
      if !page.hasToggle || !page.hasLinks {
        return;
      }
      toggleActive := !toggleActive;
      mobileLinksActive := !mobileLinksActive;
      UpdateNavbarBackground(heroBottom);
    }

    /** The global document click listener: a click outside the nav closes an open mobile menu. */
    method OutsideNavClick(insideNav: bool, heroBottom: int)
      requires Valid()
      modifies this`mobileLinksActive, this`toggleActive, this`menuOpenClass
      ensures Valid()
      ensures mobileLinksActive == (old(mobileLinksActive) && insideNav)
      ensures !insideNav && old(mobileLinksActive) ==> BackgroundUpToDate(heroBottom)
      ensures insideNav || !old(mobileLinksActive) ==>
        mobileLinksActive == old(mobileLinksActive) && menuOpenClass == old(menuOpenClass)
    {
      if !insideNav && page.hasLinks && mobileLinksActive {
        CloseMobileMenu(heroBottom);
      }
    }

    /** The keydown listener: Escape closes the mobile menu, any other key does nothing. */
    method KeyDown(key: string, heroBottom: int)
      requires Valid()
      modifies this`mobileLinksActive, this`toggleActive, this`menuOpenClass
      ensures Valid()
      ensures key == "Escape" ==> !mobileLinksActive && !toggleActive
      ensures key == "Escape" && page.hasLinks && page.hasToggle ==> BackgroundUpToDate(heroBottom)
      ensures key == "Escape" && !(page.hasLinks && page.hasToggle) ==> menuOpenClass == old(menuOpenClass)
      ensures key != "Escape" ==>
        mobileLinksActive == old(mobileLinksActive) && menuOpenClass == old(menuOpenClass)
    {
      if key == "Escape" {
        CloseMobileMenu(heroBottom);
      }
    }

    /**
     * A resize event: the pending debounce, if any, is cancelled, and a new
     * one is armed in the emptied slot (its 120 ms delay is not modelled).
     */
    method Resize()
      modifies this`resizePending
      ensures resizePending
    {
      resizePending := false;
      ArmResizeTimer();
    }

    /** setTimeout for the resize debounce, into a slot that must be empty. */
    method ArmResizeTimer()
      requires !resizePending
      modifies this`resizePending
      ensures resizePending
    {
      resizePending := true;
    }

    /**
     * The pending resize debounce fires: above the breakpoint the mobile
     * menu is closed, and the scroll state is always recomputed.
     */
    method FireResizeTimer(viewportWidth: int, heroBottom: int)
      requires Valid()
      modifies this`resizePending, this`mobileLinksActive, this`toggleActive
      modifies this`menuOpenClass, this`scrolledClass
      ensures Valid() && !resizePending
      ensures !old(resizePending) ==>
        && mobileLinksActive == old(mobileLinksActive)
        && menuOpenClass == old(menuOpenClass) && scrolledClass == old(scrolledClass)
      ensures old(resizePending) ==>
        && mobileLinksActive == (old(mobileLinksActive) && viewportWidth <= MobileBreakpoint)
        && (page.hasNavbar && page.hasHero ==> scrolledClass == (heroBottom < 0))
        && (!(page.hasNavbar && page.hasHero) ==> scrolledClass == old(scrolledClass))
        && BackgroundUpToDate(heroBottom)
    {
      if !resizePending {
        return;
      }
      resizePending := false;
      if viewportWidth > MobileBreakpoint {
        CloseMobileMenu(heroBottom);
      }
      HandleScrollState(heroBottom);
    }

    /** A scroll event closes every dropdown and the mobile menu, then recomputes the scroll state. */
    method Scroll(heroBottom: int)
      requires Valid()
      modifies open, this`mobileLinksActive, this`toggleActive
      modifies this`menuOpenClass, this`scrolledClass
      ensures Valid()
      ensures forall i :: 0 <= i < open.Length ==> !open[i]
      ensures !mobileLinksActive && !toggleActive && !menuOpenClass
      ensures page.hasNavbar && page.hasHero ==> scrolledClass == (heroBottom < 0)
      ensures !(page.hasNavbar && page.hasHero) ==> scrolledClass == old(scrolledClass)
    {
      CloseAllMenus(heroBottom);
      CloseMobileMenu(heroBottom);
      HandleScrollState(heroBottom);
    }

    /** The window load event: only the scroll state is normalised, menus stay as they are. */
    method Load(heroBottom: int)
      requires Valid()
      modifies this`scrolledClass, this`menuOpenClass
      ensures Valid() && BackgroundUpToDate(heroBottom)
      ensures page.hasNavbar && page.hasHero ==> scrolledClass == (heroBottom < 0)
      ensures !(page.hasNavbar && page.hasHero) ==> scrolledClass == old(scrolledClass)
    {
      HandleScrollState(heroBottom);
    }
  }
}
