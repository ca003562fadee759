/** The navigation bar's scroll and menu state (components/Navbar.tsx).

    The component's four state variables and two refs become the fields of
    `NavbarState`; each event handler is one method, taken as one atomic
    update. The page's layout is an input: `dom` maps an element id to
    that element's `offsetTop` and `offsetHeight`, and an id that is not a
    key has no element. */
module Navbar {
  import opened JsValues

  const ScrollThreshold := 100      // scrolled past this, scrolling down hides the bar
  const BackgroundOffset := 50      // scrolled past this, the bar shows its background
  const SectionProbeOffset := 100   // the active section is the one under scrollY + this
  const NavbarHeight := 80          // a clicked section lands this far below the top
  const MobileBreakpoint := 768     // windows narrower than this are mobile

  /** The ids the navigation links point to (their `href` without `#`),
      in the order the links are listed. */
  const Sections: seq<string> := ["home", "about", "skills", "projects", "contact"]

  /** An element's layout box. */
  datatype Box = Box(offsetTop: int, offsetHeight: int)

  /** The element with id `id` exists and its box covers position `y`. */
  predicate Covers(dom: map<string, Box>, id: string, y: int)
  {
    id in dom && dom[id].offsetTop <= y < dom[id].offsetTop + dom[id].offsetHeight
  }

  /** The index of the first id in `ids` whose element covers `y`. */
  function FirstCovering(ids: seq<string>, dom: map<string, Box>, y: int): (r: Option<nat>)
    ensures r.Some? ==> r.value < |ids| && Covers(dom, ids[r.value], y)
    ensures r.Some? ==> forall k :: 0 <= k < r.value ==> !Covers(dom, ids[k], y)
    ensures r.None? ==> forall k :: 0 <= k < |ids| ==> !Covers(dom, ids[k], y)
  {
    if |ids| == 0 then None
    else if Covers(dom, ids[0], y) then Some(0)
    else
      match FirstCovering(ids[1..], dom, y)
      case None => None
      case Some(k) => Some(k + 1)
  }

  /** The first-match rule determines the index: whichever covering id
      comes first in the list is the one chosen. */
  lemma FirstCoveringIsFirst(ids: seq<string>, dom: map<string, Box>, y: int, k: nat)
    requires k < |ids| && Covers(dom, ids[k], y)
    requires forall j :: 0 <= j < k ==> !Covers(dom, ids[j], y)
    ensures FirstCovering(ids, dom, y) == Some(k)
  {
  }

  /** `href.slice(1)`: the id a link's `#id` points to. */
  function TargetId(href: string): (id: string)
    ensures |href| > 0 ==> href == [href[0]] + id
    ensures |href| == 0 ==> id == ""
  {
    if |href| == 0 then "" else href[1..]
  }

  /** `Math.max(0, top + pageYOffset - NavbarHeight)`: where a nav click
      scrolls to, for an element whose viewport top is `top`. */
  function ScrollTarget(top: int, pageYOffset: int): (t: int)
    ensures t >= 0
    ensures t >= top + pageYOffset - NavbarHeight
    ensures t == 0 || t == top + pageYOffset - NavbarHeight
  {
    var offsetPosition := top + pageYOffset - NavbarHeight;
    if offsetPosition > 0 then offsetPosition else 0
  }

  class NavbarState {
    var activeSection: string
    var isScrolled: bool
    var isMobileMenuOpen: bool
    var isVisible: bool
    var lastScrollY: int   // ref
    var isMobile: bool     // ref

    /** What every handler keeps: the bar is shown while the menu is
        open, it is hidden only after scrolling down past the threshold,
        the background flag agrees with the last scroll position, and the
        active section is one of the linked sections. */
    ghost predicate Valid()
      reads this
    {
      && (isMobileMenuOpen ==> isVisible)
      && (!isVisible ==> lastScrollY > ScrollThreshold)
      && isScrolled == (lastScrollY > BackgroundOffset)
      && activeSection in Sections
    }

    /** The state on first render. */
    constructor ()
      ensures Valid()
      ensures activeSection == "home" && !isScrolled && !isMobileMenuOpen && isVisible
      ensures lastScrollY == 0 && !isMobile
    {
      activeSection := "home";
      isScrolled := false;
      isMobileMenuOpen := false;
      isVisible := true;
      lastScrollY := 0;
      isMobile := false;
    }

    /** `checkMobile`, on mount and on every resize: record whether the
        window is mobile, and close the menu when it stops being so. */
    method CheckMobile(innerWidth: int)
      requires Valid()
      modifies this
      ensures Valid()
      ensures isMobile == (innerWidth < MobileBreakpoint)
      ensures isMobileMenuOpen == (old(isMobileMenuOpen) && !(old(isMobile) && !isMobile))
      ensures activeSection == old(activeSection) && isScrolled == old(isScrolled)
      ensures isVisible == old(isVisible) && lastScrollY == old(lastScrollY)
    {
      var wasMobile := isMobile;
      isMobile := innerWidth < MobileBreakpoint;
      if wasMobile && !isMobile {
        isMobileMenuOpen := false;
      }
    }

    /** `updateActiveSection`: the first linked section, in link order,
        whose element covers `scrollY + 100` becomes active; when none
        does, the active section stays. */
    method UpdateActiveSection(scrollY: int, dom: map<string, Box>)
      requires Valid()
      modifies this`activeSection
      ensures Valid()
      ensures match FirstCovering(Sections, dom, scrollY + SectionProbeOffset)
              case Some(k) => activeSection == Sections[k]
              case None => activeSection == old(activeSection)
    {
      var scrollPosition := scrollY + SectionProbeOffset;
      var i := 0;
      while i < |Sections|
        invariant 0 <= i <= |Sections|
        invariant forall k :: 0 <= k < i ==> !Covers(dom, Sections[k], scrollPosition)
        invariant activeSection == old(activeSection)
      {
        var section := Sections[i];
        if section in dom {
          var element := dom[section];
          if scrollPosition >= element.offsetTop && scrollPosition < element.offsetTop + element.offsetHeight {
            activeSection := section;
            FirstCoveringIsFirst(Sections, dom, scrollPosition, i);
            return;
          }
        }
        i := i + 1;
      }
    }

    /** `handleScroll`: while the menu is closed, scrolling down past the
        threshold hides the bar and scrolling up shows it; while it is
        open the bar is shown. Then the background flag, the last
        position and the active section are updated. */
    method HandleScroll(currentScrollY: int, dom: map<string, Box>)
      requires Valid()
      modifies this
      ensures Valid()
      ensures !old(isMobileMenuOpen) && currentScrollY > old(lastScrollY) && currentScrollY > ScrollThreshold ==> !isVisible
      ensures !old(isMobileMenuOpen) && currentScrollY < old(lastScrollY) ==> isVisible
      ensures !old(isMobileMenuOpen) && currentScrollY == old(lastScrollY) ==> isVisible == old(isVisible)
      ensures !old(isMobileMenuOpen) && old(lastScrollY) < currentScrollY <= ScrollThreshold ==>
                isVisible == old(isVisible)
      ensures old(isMobileMenuOpen) ==> isVisible
      ensures isScrolled == (currentScrollY > BackgroundOffset) && lastScrollY == currentScrollY
      ensures match FirstCovering(Sections, dom, currentScrollY + SectionProbeOffset)
              case Some(k) => activeSection == Sections[k]
              case None => activeSection == old(activeSection)
      ensures isMobileMenuOpen == old(isMobileMenuOpen) && isMobile == old(isMobile)
    {
      if !isMobileMenuOpen {
        if currentScrollY > lastScrollY && currentScrollY > ScrollThreshold {
          isVisible := false;
        } else if currentScrollY < lastScrollY {
          isVisible := true;
        }
      } else {
        isVisible := true;
      }
      isScrolled := currentScrollY > BackgroundOffset;
      lastScrollY := currentScrollY;
      UpdateActiveSection(currentScrollY, dom);
    }

    /** `handleNavClick`: close the menu if it is open, then scroll so the
        target section sits below the bar, never above the page top.
        `viewportTop` gives each existing element's
        `getBoundingClientRect().top` at the moment of the scroll; the
        result is the `window.scrollTo` target, `None` when the target
        element does not exist and nothing scrolls. */
    method HandleNavClick(href: string, viewportTop: map<string, int>, pageYOffset: int)
      returns (scrollTop: Option<int>)
      requires Valid()
      modifies this`isMobileMenuOpen
      ensures Valid()
      ensures !isMobileMenuOpen
      ensures TargetId(href) in viewportTop ==>
                scrollTop == Some(ScrollTarget(viewportTop[TargetId(href)], pageYOffset))
      ensures TargetId(href) !in viewportTop ==> scrollTop == None
      ensures scrollTop.Some? ==> scrollTop.value >= 0
    {
      var targetId := TargetId(href);
      var wasMenuOpen := isMobileMenuOpen;
      if wasMenuOpen {
        isMobileMenuOpen := false;
      }
      if targetId in viewportTop {
        var elementPosition := viewportTop[targetId];
        var offsetPosition := elementPosition + pageYOffset - NavbarHeight;
        scrollTop := Some(if 0 > offsetPosition then 0 else offsetPosition);
      } else {
        scrollTop := None;
      }
    }

    /** `toggleMobileMenu`: flip the menu; opening it also shows the bar. */
    method ToggleMobileMenu()
      requires Valid()
      modifies this
      ensures Valid()
      ensures isMobileMenuOpen == !old(isMobileMenuOpen)
      ensures isVisible == (old(isVisible) || isMobileMenuOpen)
      ensures activeSection == old(activeSection) && isScrolled == old(isScrolled)
      ensures lastScrollY == old(lastScrollY) && isMobile == old(isMobile)
    {
      var prev := isMobileMenuOpen;
      if !prev {
        isVisible := true;
      }
      isMobileMenuOpen := !prev;
    }
  }
}
