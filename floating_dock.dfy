/**
 * The FloatingDock: a navigation dock that is either a collapsed dot or an
 * expanded bar. Scrolling and clicking the dot move it between the two
 * through the state cells isExpanded and isManuallyOpen; scrolling also
 * picks the highlighted section. The dock's smooth scrolling uses an
 * ease-in-out-cubic curve.
 *
 * The page's geometry (scrollY, innerHeight and the section elements that
 * document.getElementById finds) is a parameter of every scroll.
 */
module FloatingDock {
  import opened Numeric

  /** Width below which the dock uses its mobile size. */
  const MobileBreakpoint: int := 640

  /** The easing passed to lenis.scrollTo: ease-in-out cubic. */
  function EaseInOutCubic(t: real): (e: real)
    ensures t == 0.0 ==> e == 0.0
    ensures t == 0.5 ==> e == 0.5
    ensures t == 1.0 ==> e == 1.0
    ensures 0.0 <= t <= 1.0 ==> 0.0 <= e <= 1.0
    ensures 0.0 <= t < 0.5 ==> e < 0.5
    ensures 0.5 <= t <= 1.0 ==> 0.5 <= e
  {
    if t < 0.5 then
      assert 0.0 <= t ==> 0.0 <= t * t * t <= 0.125 by {
        if 0.0 <= t { CubeMonotone(0.0, t); CubeMonotone(t, 0.5); }
      }
      assert 0.0 <= t ==> t * t * t < 0.125 by {
        if 0.0 <= t {
          assert 0.125 - t * t * t == (0.5 - t) * (0.25 + 0.5 * t + t * t);
          ProductPositive(0.5 - t, 0.25 + 0.5 * t + t * t);
        }
      }
      4.0 * t * t * t
    else
      var u := -2.0 * t + 2.0;
      assert t <= 1.0 ==> 0.0 <= u * u * u <= 1.0 by {
        if t <= 1.0 { CubeMonotone(0.0, u); CubeMonotone(u, 1.0); }
      }
      1.0 - u * u * u / 2.0
  }

  /** The curve never decreases on [0, 1]; the two branches meet at 0.5. */
  lemma EaseInOutCubicMonotone(t1: real, t2: real)
    requires 0.0 <= t1 <= t2 <= 1.0
    ensures EaseInOutCubic(t1) <= EaseInOutCubic(t2)
  {
    if t2 < 0.5 {
      CubeMonotone(t1, t2);
      assert 4.0 * t1 * t1 * t1 == 4.0 * (t1 * t1 * t1);
      assert 4.0 * t2 * t2 * t2 == 4.0 * (t2 * t2 * t2);
    } else if t1 >= 0.5 {
      var u1, u2 := -2.0 * t1 + 2.0, -2.0 * t2 + 2.0;
      CubeMonotone(u2, u1);
    }
  }

  /** A laid-out element: offsetTop and offsetHeight. */
  datatype Element = Element(offsetTop: real, offsetHeight: real)

  /** What a scroll event sees of the page. */
  datatype Page = Page(scrollY: real, innerHeight: real,
                       hero: Option<Element>, about: Option<Element>,
                       works: Option<Element>, contact: Option<Element>)

  datatype Section = Hero | About | Works | Contact

  /** The state cells. */
  datatype Dock = Dock(isExpanded: bool, isManuallyOpen: bool, activeSection: Section)

  const Initial: Dock := Dock(false, false, Hero)

  /** The dock never stays open by hand while collapsed. */
  predicate Coherent(d: Dock)
  {
    d.isManuallyOpen ==> d.isExpanded
  }

  /** A section counts when it is on the page and the viewport's middle has reached it. */
  predicate Reached(e: Option<Element>, middle: real)
  {
    e.Some? && middle >= e.value.offsetTop
  }

  /** The active-section cascade: contact, then works, then about, else hero. */
  function ActiveSection(page: Page): (s: Section)
    ensures var middle := page.scrollY + page.innerHeight / 2.0;
      (s == Contact <==> Reached(page.contact, middle)) &&
      (s == Works <==> !Reached(page.contact, middle) && Reached(page.works, middle)) &&
      (s == About <==>
         (!Reached(page.contact, middle) && !Reached(page.works, middle) && Reached(page.about, middle))) &&
      (s == Hero <==>
         (!Reached(page.contact, middle) && !Reached(page.works, middle) && !Reached(page.about, middle)))
  {
    var middle := page.scrollY + page.innerHeight / 2.0;
    if page.contact.Some? && middle >= page.contact.value.offsetTop then Contact
    else if page.works.Some? && middle >= page.works.value.offsetTop then Works
    else if page.about.Some? && middle >= page.about.value.offsetTop then About
    else Hero
  }

  /** The scroll listener's body. */
  function OnScroll(d: Dock, page: Page): (r: Dock)
    // without a hero section nothing happens
    ensures page.hero.None? ==> r == d
    ensures page.hero.Some? ==> r.activeSection == ActiveSection(page)
    // standard behaviour: expanded exactly when past 30% of the hero's bottom
    ensures page.hero.Some? && !d.isManuallyOpen ==>
      !r.isManuallyOpen &&
      (r.isExpanded <==> page.scrollY > 0.3 * (page.hero.value.offsetTop + page.hero.value.offsetHeight))
    // opened by hand: only the very top closes it
    ensures page.hero.Some? && d.isManuallyOpen && page.scrollY == 0.0 ==>
      !r.isManuallyOpen && !r.isExpanded
    ensures page.hero.Some? && d.isManuallyOpen && page.scrollY != 0.0 ==>
      r.isManuallyOpen && r.isExpanded
    ensures Coherent(d) ==> Coherent(r)
  {
    match page.hero
    case None => d
    case Some(hero) =>
      var heroBottom := hero.offsetTop + hero.offsetHeight;
      var scrollThreshold := heroBottom * 0.3;
      var flags :=
        if d.isManuallyOpen then
          (if page.scrollY == 0.0 then (false, false) else (true, true))
        else (page.scrollY > scrollThreshold, false);
      Dock(flags.0, flags.1, ActiveSection(page))
  }

  /** handleDotClick. */
  function OnDotClick(d: Dock): (r: Dock)
    ensures r.isExpanded
    ensures !d.isExpanded ==> r.isManuallyOpen
    ensures d.isExpanded ==> r == d
    ensures r.activeSection == d.activeSection
    ensures Coherent(d) ==> Coherent(r)
  {
    if !d.isExpanded then Dock(true, true, d.activeSection) else d
  }

  /** The scroll effect depends on isManuallyOpen: whenever a render has
      changed that cell since the effect last ran, React runs the effect
      again, and the effect calls the listener once more for the page as it
      is. The listener can only clear the cell, never set it, so at most two
      re-runs follow one event. */
  function Rerun(before: Dock, after: Dock, page: Page): (r: Dock)
    // no change of the dependency, no re-run
    ensures before.isManuallyOpen == after.isManuallyOpen ==> r == after
    // at most two more runs of the listener
    ensures r == after || r == OnScroll(after, page) || r == OnScroll(OnScroll(after, page), page)
    // the re-runs can clear the manual flag but never set it
    ensures r.isManuallyOpen ==> after.isManuallyOpen
    ensures Coherent(after) ==> Coherent(r)
    decreases (if after.isManuallyOpen then 2 else 0) + (if before.isManuallyOpen != after.isManuallyOpen then 1 else 0)
  {
    if before.isManuallyOpen == after.isManuallyOpen then after
    else Rerun(after, OnScroll(after, page), page)
  }

  /** What the user observes: an event and the effect's re-runs it causes. */
  datatype Event = Scroll(page: Page) | Click(page: Page)

  function Apply(d: Dock, e: Event): (r: Dock)
    ensures Coherent(d) ==> Coherent(r)
  {
    match e
    case Scroll(page) => Rerun(d, OnScroll(d, page), page)
    case Click(page) => Rerun(d, OnDotClick(d), page)
  }

  /** A sequence of events, in order; isManuallyOpen implies isExpanded
      after any sequence of scrolls and clicks from a state where it holds. */
  function Run(d: Dock, events: seq<Event>): (r: Dock)
    ensures events == [] ==> r == d
    ensures Coherent(d) ==> Coherent(r)
    decreases |events|
  {
    if events == [] then d else Run(Apply(d, events[0]), events[1..])
  }

  lemma InitialCoherent(events: seq<Event>)
    ensures Coherent(Run(Initial, events))
  {
  }

  /** At the very top of the page a click on the dot does not keep the dock
      open by hand: the effect's first re-run sees scrollY = 0 and clears
      both flags; the second applies the standard rule at scrollY = 0, which
      collapses the dock unless the hero section ends above the page top. */
  lemma ClickAtTopCollapses(d: Dock, page: Page)
    requires Coherent(d) && !d.isExpanded && page.scrollY == 0.0
    ensures page.hero.Some? ==>
      var r, hero := Apply(d, Click(page)), page.hero.value;
      !r.isManuallyOpen && (r.isExpanded <==> hero.offsetTop + hero.offsetHeight < 0.0)
    // without a hero section the listener does nothing and the click stands
    ensures page.hero.None? ==> Apply(d, Click(page)).isExpanded && Apply(d, Click(page)).isManuallyOpen
  {
    var clicked := OnDotClick(d);
    if page.hero.Some? {
      var cleared := OnScroll(clicked, page);
      assert !cleared.isManuallyOpen && !cleared.isExpanded;
      assert Apply(d, Click(page)) == OnScroll(cleared, page);
    }
  }

  /** Anywhere below the top, a click on the collapsed dot keeps it open by hand. */
  lemma ClickBelowTopOpens(d: Dock, page: Page)
    requires Coherent(d) && !d.isExpanded && page.scrollY != 0.0
    ensures Apply(d, Click(page)).isExpanded && Apply(d, Click(page)).isManuallyOpen
  {
  }

  /** checkMobile. */
  predicate IsMobile(innerWidth: int)
  {
    innerWidth < MobileBreakpoint
  }

  /** The animated (width, height) of the dock's background. */
  function DockSize(isExpanded: bool, isMobile: bool): (size: (int, int))
    ensures !isExpanded ==> size == (20, 20)
    ensures isExpanded && isMobile ==> size == (220, 56)
    ensures isExpanded && !isMobile ==> size == (320, 72)
  {
    (if isExpanded then (if isMobile then 220 else 320) else 20,
     if isExpanded then (if isMobile then 56 else 72) else 20)
  }

  /** Expanding always enlarges the dock, and the mobile bar is the smaller one. */
  lemma DockSizeOrder(isMobile: bool)
    ensures var c, e := DockSize(false, isMobile), DockSize(true, isMobile);
      c.0 < e.0 && c.1 < e.1
    ensures DockSize(true, true).0 < DockSize(true, false).0
    ensures DockSize(true, true).1 < DockSize(true, false).1
  {
  }

  /** The component's state cells. */
  class FloatingDock {
    var isExpanded: bool
    var isManuallyOpen: bool
    var activeSection: Section
    var isMobile: bool

    function State(): Dock
      reads this
    {
      Dock(isExpanded, isManuallyOpen, activeSection)
    }

    ghost predicate Valid()
      reads this
    {
      Coherent(State())
    }

    constructor ()
      ensures Valid() && State() == Initial && !isMobile
    {
      isExpanded, isManuallyOpen, activeSection, isMobile := false, false, Hero, false;
    }

    /** checkMobile, on mount and on every resize. */
    method CheckMobile(innerWidth: int)
      modifies this
      ensures isMobile == IsMobile(innerWidth)
      ensures State() == old(State())
    {
      isMobile := innerWidth < MobileBreakpoint;
    }

    /** The scroll listener, as the setter calls it makes. */
    method HandleScroll(page: Page)
      requires Valid()
      modifies this
      ensures Valid()
      ensures State() == OnScroll(old(State()), page)
      ensures isMobile == old(isMobile)
    {
      if page.hero.None? {
        return;
      }
      var hero := page.hero.value;
      var scrollY := page.scrollY;
      var heroBottom := hero.offsetTop + hero.offsetHeight;
      var scrollThreshold := heroBottom * 0.3;

      if isManuallyOpen {
        if scrollY == 0.0 {
          isManuallyOpen := false;
          isExpanded := false;
        } else {
          isExpanded := true;
        }
      } else {
        isExpanded := scrollY > scrollThreshold;
      }

      var viewportMiddle := scrollY + page.innerHeight / 2.0;
      if page.contact.Some? && viewportMiddle >= page.contact.value.offsetTop {
        activeSection := Contact;
      } else if page.works.Some? && viewportMiddle >= page.works.value.offsetTop {
        activeSection := Works;
      } else if page.about.Some? && viewportMiddle >= page.about.value.offsetTop {
        activeSection := About;
      } else {
        activeSection := Hero;
      }
    }

    /** handleDotClick. */
    method HandleDotClick()
      requires Valid()
      modifies this
      ensures Valid()
      ensures State() == OnDotClick(old(State()))
      ensures isMobile == old(isMobile)
    {
      if !isExpanded {
        isManuallyOpen := true;
        isExpanded := true;
      }
    }

    /** One event: its handler, then the effect's re-runs for as long as
        the previous run changed isManuallyOpen. */
    method Dispatch(e: Event)
      requires Valid()
      modifies this
      ensures Valid()
      ensures State() == Apply(old(State()), e)
      ensures isMobile == old(isMobile)
    {
      var last := State();
      match e {
        case Scroll(page) => HandleScroll(page);
        case Click(_) => HandleDotClick();
      }
      while isManuallyOpen != last.isManuallyOpen
        invariant Valid() && isMobile == old(isMobile)
        invariant Rerun(last, State(), e.page) == Apply(old(State()), e)
        decreases (if isManuallyOpen then 2 else 0) + (if isManuallyOpen != last.isManuallyOpen then 1 else 0)
      {
        last := State();
        HandleScroll(e.page);
      }
    }

    /** The dock's size for its current state. */
    method Size() returns (width: int, height: int)
      ensures (width, height) == DockSize(isExpanded, isMobile)
      ensures isManuallyOpen && Valid() ==> width > 20 && height > 20
    {
      width := if isExpanded then (if isMobile then 220 else 320) else 20;
      height := if isExpanded then (if isMobile then 56 else 72) else 20;
    }
  }
}
