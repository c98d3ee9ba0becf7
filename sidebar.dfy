/**
 * The sidebar: its navigation table, which entry is highlighted as active,
 * and which page each control asks to navigate to.
 */
module Sidebar {
  import opened Results
  import opened Routing

  /** One entry of the navigation table; Analytics has no page and is disabled. */
  datatype NavItem = NavItem(key: string, title: string, page: Option<Page>, disabled: bool)

  const NavItems: seq<NavItem> := [
    NavItem("skill-search", "Skill Search", Some(SkillSearch), false),
    NavItem("analytics", "Analytics", None, true),
    NavItem("my-skills", "My Skills - Employee only", Some(MySkills), false),
    NavItem("certifications", "CV Processing", Some(CvProcessing), false),
    NavItem("employee-profiles", "Employee Profiles", Some(EmployeeProfiles), false)
  ]

  /** The entries the menu renders: the table without its first entry, which the search box replaces. */
  function RenderedItems(): (r: seq<NavItem>)
    ensures |r| == |NavItems| - 1
    ensures forall k :: 0 <= k < |r| ==> r[k] == NavItems[k + 1]
    ensures forall k :: 0 <= k < |r| ==> r[k].page != Some(SkillSearch)
  {
    NavItems[1..]
  }

  /** `isActive`: the entry has a page and it is the current one. */
  predicate IsActive(item: NavItem, current: Page)
  {
    item.page.Some? && item.page.value == current
  }

  /** The entry's click handler: the page `onPageChange` is called with, or None when it is not called. */
  function ClickItem(item: NavItem): (call: Option<Page>)
    ensures item.disabled ==> call == None
    ensures !item.disabled ==> call == item.page
  {
    if !item.disabled && item.page.Some? then Some(item.page.value) else None
  }

  /** The sidebar's clickable controls: the Try Now button, the search box, and the k-th rendered entry. */
  datatype Control = TryNow | SearchBox | Entry(k: nat)

  /** The page a control navigates to, or None when clicking it does nothing. */
  function Activate(c: Control): (call: Option<Page>)
    ensures c == TryNow ==> call == Some(AiChat)
    ensures c == SearchBox ==> call == Some(SkillSearch)
    ensures c.Entry? && c.k < |RenderedItems()| ==> call == ClickItem(RenderedItems()[c.k])
    ensures c.Entry? && c.k >= |RenderedItems()| ==> call == None
  {
    match c
    case TryNow => Some(AiChat)
    case SearchBox => Some(SkillSearch)
    case Entry(k) => if k < |RenderedItems()| then ClickItem(RenderedItems()[k]) else None
  }

  /** The pages of the table are pairwise distinct. */
  lemma NavPagesDistinct()
    ensures forall i, j :: 0 <= i < j < |NavItems| && NavItems[i].page.Some? ==> NavItems[i].page != NavItems[j].page
  {
  }

  /** Whatever the current page, at most one rendered entry is active. */
  lemma AtMostOneActive(current: Page)
    ensures forall i, j ::
              0 <= i < |RenderedItems()| && 0 <= j < |RenderedItems()| &&
              IsActive(RenderedItems()[i], current) && IsActive(RenderedItems()[j], current)
              ==> i == j
  {
    NavPagesDistinct();
  }

  /** The disabled Analytics entry, the only one without a page, never navigates. */
  lemma AnalyticsNeverNavigates()
    ensures RenderedItems()[0].key == "analytics" && RenderedItems()[0].disabled
    ensures Activate(Entry(0)) == None
    ensures forall k :: 0 <= k < |RenderedItems()| && RenderedItems()[k].page.None? ==> RenderedItems()[k].disabled
  {
  }

  /** A control for each page: every page can be reached from the sidebar. */
  function ControlFor(p: Page): (c: Control)
    ensures Activate(c) == Some(p)
  {
    match p
    case AiChat => TryNow
    case SkillSearch => SearchBox
    case MySkills => Entry(1)
    case CvProcessing => Entry(2)
    case EmployeeProfiles => Entry(3)
  }

  /**
   * Handing a control's page to the shell's page change shows that page,
   * and if the control was an entry it is the one then highlighted.
   */
  lemma NavigationShowsPage(c: Control)
    requires Activate(c).Some?
    ensures Resolve(PathFor(Key(Activate(c).value))) == Dashboard(Activate(c).value)
    ensures c.Entry? ==> IsActive(RenderedItems()[c.k], CurrentPage(PathFor(Key(Activate(c).value))))
  {
    RoundTrip(Activate(c).value);
  }
}
