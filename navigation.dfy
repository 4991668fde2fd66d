/**
  The site header (src/components/sections/Navigation.tsx): the background classes
  switched by the scroll position, the desktop Payment Gateway dropdown with its
  delayed close, the mobile menu and its payment sub-menu, and the choice between
  in-page anchors and routes for the Products and Insights links.
 */
module Navigation {
  import opened Wrappers

  /** The classes `handleScroll` adds past the threshold and removes below it. */
  const ScrolledClasses: set<string> := {"bg-[#0B0B0D]/90", "backdrop-blur-md"}

  const ScrollThreshold: real := 100.0

  /** The nav element's class list after a scroll event at `scrollY`. */
  function ClassesAfterScroll(classes: set<string>, scrollY: real): (r: set<string>)
    ensures forall c :: c in ScrolledClasses ==> (c in r <==> scrollY > ScrollThreshold)
    ensures forall c :: c !in ScrolledClasses ==> (c in r <==> c in classes)
  {
    if scrollY > ScrollThreshold then classes + ScrolledClasses else classes - ScrolledClasses
  }

  /**
    The classes depend only on the latest scroll position, not on the ones before it;
    in particular repeated events at one position give the same class list.
   */
  lemma ScrollForgetsHistory(classes: set<string>, y1: real, y2: real)
    ensures ClassesAfterScroll(ClassesAfterScroll(classes, y1), y2) == ClassesAfterScroll(classes, y2)
  {
    var once, twice := ClassesAfterScroll(classes, y2), ClassesAfterScroll(ClassesAfterScroll(classes, y1), y2);
    assert forall c :: c in twice <==> c in once;
  }

  /** `location.pathname === '/'`. */
  predicate IsHomePage(pathname: string) {
    pathname == "/"
  }

  /** A link as rendered: a plain anchor to a fragment of this page, or a router link to a path and fragment. */
  datatype SectionLinkTarget = Anchor(fragment: string) | Route(path: string, fragment: string)

  /** The Products and Insights links: `#id` on the home page, `/#id` on any other. */
  function SectionLink(pathname: string, id: string): (l: SectionLinkTarget)
    ensures l.Anchor? <==> IsHomePage(pathname)
    ensures l.fragment == "#" + id
  {
    if IsHomePage(pathname) then Anchor("#" + id) else Route("/", "#" + id)
  }

  /** The `href` the link carries: the fragment alone, or the path followed by the fragment. */
  function Href(l: SectionLinkTarget): (href: string)
    ensures l.Anchor? ==> href == l.fragment
    ensures l.Route? ==> href == l.path + l.fragment && |href| == |l.path| + |l.fragment|
  {
    match l
    case Anchor(f) => f
    case Route(p, f) => p + f
  }

  /** The page and fragment a click on the link leads to, from the page at `pathname`. */
  function Destination(pathname: string, l: SectionLinkTarget): (dest: (string, string))
    ensures dest.1 == l.fragment
    ensures l.Anchor? ==> dest.0 == pathname
    ensures l.Route? ==> dest.0 == l.path
  {
    match l
    case Anchor(f) => (pathname, f)
    case Route(p, f) => (p, f)
  }

  /**
    From every page the section links lead to the home page URL `/` with fragment `#id`.
    Only the plain anchor scrolls to the section; the route link changes the URL.
   */
  lemma SectionLinkReachesHome(pathname: string, id: string)
    ensures Destination(pathname, SectionLink(pathname, id)) == ("/", "#" + id)
    ensures Href(SectionLink(pathname, id)) == (if IsHomePage(pathname) then "#" + id else "/#" + id)
  {
  }

  /**
    The header's state. `closeTimer` is the value held by `dropdownTimeoutRef` (never
    reset to null); `pendingCloses` are the close timeouts scheduled and neither fired
    nor cleared; `pointerInside` records whether the pointer is over the dropdown, which
    makes mouse-enter and mouse-leave alternate as they do in the browser.
   */
  class NavigationBar {
    var pathname: string
    var navPresent: bool
    var navClasses: set<string>
    var paymentDropdownOpen: bool
    var mobileMenuOpen: bool
    var mobilePaymentDropdownOpen: bool
    var closeTimer: Option<nat>
    var pendingCloses: set<nat>
    var nextTimerId: nat
    ghost var pointerInside: bool

    ghost predicate Valid()
      reads this
    {
      && (forall t :: t in pendingCloses ==> closeTimer == Some(t))
      && 0 < nextTimerId
      && (closeTimer.Some? ==> 0 < closeTimer.value < nextTimerId)
      && (pointerInside ==> pendingCloses == {})
    }

    /** Mounting at `pathname`: every menu closed, no timer, the route-change effect already run. */
    constructor (pathname: string, navPresent: bool, classes: set<string>)
      ensures Valid()
      ensures this.pathname == pathname && this.navPresent == navPresent && navClasses == classes
      ensures !paymentDropdownOpen && !mobileMenuOpen && !mobilePaymentDropdownOpen
      ensures closeTimer == None && pendingCloses == {} && !pointerInside
    {
      this.pathname := pathname;
      this.navPresent := navPresent;
      navClasses := classes;
      paymentDropdownOpen := false;
      mobileMenuOpen := false;
      mobilePaymentDropdownOpen := false;
      closeTimer := None;
      pendingCloses := {};
      nextTimerId := 1;
      pointerInside := false;
    }

    /** `handleScroll`: with no nav element the event changes nothing. */
    method OnScroll(scrollY: real)
      requires Valid()
      modifies this`navClasses
      ensures Valid()
      ensures navPresent ==> navClasses == ClassesAfterScroll(old(navClasses), scrollY)
      ensures !navPresent ==> navClasses == old(navClasses)
    {
      if navPresent {
        navClasses := ClassesAfterScroll(navClasses, scrollY);
      }
    }

    /** The route changes: a new pathname closes the mobile menu and its payment sub-menu. */
    method RouteChange(newPathname: string)
      requires Valid()
      modifies this`pathname, this`mobileMenuOpen, this`mobilePaymentDropdownOpen
      ensures Valid() && pathname == newPathname
      ensures newPathname != old(pathname) ==> !mobileMenuOpen && !mobilePaymentDropdownOpen
      ensures newPathname == old(pathname) ==>
        mobileMenuOpen == old(mobileMenuOpen) && mobilePaymentDropdownOpen == old(mobilePaymentDropdownOpen)
    {
      if newPathname != pathname {
        mobileMenuOpen := false;
        mobilePaymentDropdownOpen := false;
      }
      pathname := newPathname;
    }

    /** `handleMouseEnter`: the pending close, if any, is cancelled and the dropdown opens. */
    method MouseEnter()
      requires Valid() && !pointerInside
      modifies this`pendingCloses, this`paymentDropdownOpen, this`pointerInside
      ensures Valid() && pointerInside
      ensures paymentDropdownOpen && pendingCloses == {}
    {
      if closeTimer.Some? {
        pendingCloses := pendingCloses - {closeTimer.value};
      }
      paymentDropdownOpen := true;
      pointerInside := true;
    }

    /** `handleMouseLeave`: a close is scheduled for 150 ms later and its handle kept in the ref. */
    method MouseLeave()
      requires Valid() && pointerInside
      modifies this`closeTimer, this`pendingCloses, this`nextTimerId, this`pointerInside
      ensures Valid() && !pointerInside
      ensures closeTimer.Some? && pendingCloses == {closeTimer.value}
      ensures closeTimer.value !in old(pendingCloses) && closeTimer != old(closeTimer)
    {
      closeTimer := Some(nextTimerId);
      pendingCloses := pendingCloses + {nextTimerId};
      nextTimerId := nextTimerId + 1;
      pointerInside := false;
    }

    /** The scheduled close `t` fires and closes the dropdown. */
    method CloseFires(t: nat)
      requires Valid() && t in pendingCloses
      modifies this`pendingCloses, this`paymentDropdownOpen
      ensures Valid() && !paymentDropdownOpen && pendingCloses == old(pendingCloses) - {t}
    {
      pendingCloses := pendingCloses - {t};
      paymentDropdownOpen := false;
    }

    /** Clicking Collection or Disbursement in the desktop dropdown closes it. */
    method DropdownLinkClick()
      requires Valid()
      modifies this`paymentDropdownOpen
      ensures Valid() && !paymentDropdownOpen
    {
      paymentDropdownOpen := false;
    }

    /** The menu button flips the mobile menu. */
    method ToggleMobileMenu()
      requires Valid()
      modifies this`mobileMenuOpen
      ensures Valid() && mobileMenuOpen == !old(mobileMenuOpen)
    {
      mobileMenuOpen := !mobileMenuOpen;
    }

    /** The Payment Gateway button of the mobile menu flips its sub-menu. */
    method ToggleMobilePayment()
      requires Valid()
      modifies this`mobilePaymentDropdownOpen
      ensures Valid() && mobilePaymentDropdownOpen == !old(mobilePaymentDropdownOpen)
    {
      mobilePaymentDropdownOpen := !mobilePaymentDropdownOpen;
    }

    /** Clicking a link of the mobile menu closes the menu; the payment sub-menu keeps its state. */
    method MobileLinkClick()
      requires Valid()
      modifies this`mobileMenuOpen
      ensures Valid() && !mobileMenuOpen
    {
      mobileMenuOpen := false;
    }
  }

  /**
    Leaving the dropdown and coming back before the close fires keeps it open: the
    re-enter cancels the close, so no close is left that could fire.
   */
  method ReenterKeepsDropdownOpen(nav: NavigationBar)
    requires nav.Valid() && nav.pointerInside
    modifies nav
    ensures nav.Valid() && nav.paymentDropdownOpen && nav.pendingCloses == {}
  {
    nav.MouseLeave();
    nav.MouseEnter();
  }
}
