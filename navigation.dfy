/**
 * The navigation bar (src/components/Navigation.tsx): the scroll-spy that
 * picks the active section, the smooth scroll to a section under the fixed
 * bar, and the mobile menu flag.
 *
 * The page is a parameter: `sections` maps the id of every section element
 * on the page to its `offsetTop`; an id the map lacks is an element
 * `getElementById` does not find. Every `window.scrollTo` is logged by its
 * target top.
 */
module Navigation {
  import opened Wrappers

  /** The ids of `navItems`, top of the page first. */
  const NavIds: seq<string> := [
    "hero", "experience", "projects", "linkedin-moments", "live-code",
    "mobile-simulator", "skill-tree", "terminal", "skills", "contact"
  ]

  /** How far below the window's top a section may start and still count as reached. */
  const SpyOffset: int := 200

  /** The height of the fixed bar, kept clear when scrolling to a section. */
  const BarHeight: int := 80

  /** Section `i` is on the page and starts at or above `position`. */
  predicate Qualifies(sections: map<string, int>, position: int, i: nat)
    requires i < |NavIds|
    ensures Qualifies(sections, position, i) ==> NavIds[i] in sections
  {
    NavIds[i] in sections && sections[NavIds[i]] <= position
  }

  /** The last of the first `k` sections that qualifies, if any. */
  function LastQualifying(sections: map<string, int>, position: int, k: nat): (r: Option<nat>)
    requires k <= |NavIds|
    ensures r.Some? ==> r.value < k && Qualifies(sections, position, r.value)
    ensures r.Some? ==> forall j :: r.value < j < k ==> !Qualifies(sections, position, j)
    ensures r.None? <==> forall j :: 0 <= j < k ==> !Qualifies(sections, position, j)
  {
    if k == 0 then None
    else if Qualifies(sections, position, k - 1) then Some(k - 1)
    else LastQualifying(sections, position, k - 1)
  }

  /** The section the spy selects at scroll offset `scrollY`, if any. */
  function Spied(sections: map<string, int>, scrollY: int): (r: Option<nat>)
    ensures r.Some? ==> r.value < |NavIds| && NavIds[r.value] in sections
    ensures r.Some? ==> sections[NavIds[r.value]] <= scrollY + SpyOffset
    ensures var position := scrollY + SpyOffset;
            r.None? <==> forall j :: 0 <= j < |NavIds| ==> !Qualifies(sections, position, j)
  {
    LastQualifying(sections, scrollY + SpyOffset, |NavIds|)
  }

  /** Whichever section qualifies, the one selected is at least as far down the page. */
  lemma {:induction false} SpiedIsLowest(sections: map<string, int>, position: int, k: nat, i: nat)
    requires i < k <= |NavIds| && Qualifies(sections, position, i)
    ensures LastQualifying(sections, position, k).Some?
    ensures i <= LastQualifying(sections, position, k).value
  {
    if i < k - 1 && !Qualifies(sections, position, k - 1) {
      SpiedIsLowest(sections, position, k - 1, i);
    }
  }

  /** Scrolling further down never moves the selection back up the page. */
  lemma {:induction false} SpiedMonotone(sections: map<string, int>, p: int, q: int, k: nat)
    requires p <= q && k <= |NavIds|
    requires LastQualifying(sections, p, k).Some?
    ensures LastQualifying(sections, q, k).Some?
    ensures LastQualifying(sections, p, k).value <= LastQualifying(sections, q, k).value
  {
    var i := LastQualifying(sections, p, k).value;
    assert Qualifies(sections, q, i);
    SpiedIsLowest(sections, q, k, i);
  }

  /** The navigation bar's state and the scrolls it has asked the window for. */
  class Navigator {
    /** Whether the mobile menu is open. */
    var isOpen: bool
    /** The id of the highlighted section. */
    var activeSection: string
    /** The `top` of every `window.scrollTo`, oldest first. */
    var scrolls: seq<int>

    /** The highlighted section is always one of the bar's items. */
    ghost predicate Valid()
      reads this
    {
      activeSection in NavIds
    }

    /** The first render and its mount effect: menu closed, "hero" active, the window at the top. */
    constructor ()
      ensures Valid()
      ensures !isOpen && activeSection == "hero" && scrolls == [0]
    {
      isOpen := false;
      activeSection := "hero";
      scrolls := [0];
    }

    /**
     * `handleScroll`: searches the sections from the bottom of the page up
     * and highlights the first one on the page whose top is at or above
     * `scrollY + 200`; if there is none the highlight stays.
     */
    method HandleScroll(scrollY: int, sections: map<string, int>)
      requires Valid()
      modifies this
      ensures Valid()
      ensures Spied(sections, scrollY).Some? ==>
                activeSection == NavIds[Spied(sections, scrollY).value]
      ensures Spied(sections, scrollY).None? ==> activeSection == old(activeSection)
      ensures isOpen == old(isOpen) && scrolls == old(scrolls)
    {
      var position := scrollY + SpyOffset;
      var i := |NavIds| - 1;
      while i >= 0
        invariant -1 <= i < |NavIds|
        invariant forall j :: i < j < |NavIds| ==> !Qualifies(sections, position, j)
        invariant activeSection == old(activeSection)
        decreases i
      {
        if NavIds[i] in sections && sections[NavIds[i]] <= position {
          activeSection := NavIds[i];
          SpiedIsLowest(sections, position, |NavIds|, i);
          break;
        }
        i := i - 1;
      }
    }

    /**
     * `scrollToSection`: scrolls so the section starts just below the bar
     * if it is on the page, and closes the menu either way.
     */
    method ScrollToSection(id: string, sections: map<string, int>)
      requires Valid()
      modifies this
      ensures Valid() && !isOpen && activeSection == old(activeSection)
      ensures id in sections ==> scrolls == old(scrolls) + [sections[id] - BarHeight]
      ensures id !in sections ==> scrolls == old(scrolls)
    {
      if id in sections {
        var top := sections[id] - BarHeight;
        scrolls := scrolls + [top];
      }
      isOpen := false;
    }

    /** The mobile menu button. */
    method ToggleMenu()
      requires Valid()
      modifies this
      ensures Valid() && isOpen == !old(isOpen)
      ensures activeSection == old(activeSection) && scrolls == old(scrolls)
    {
      isOpen := !isOpen;
    }
  }
}
