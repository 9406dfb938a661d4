/** The navigation sidebar: open on wide windows and closed on narrow ones,
    collapsible, with one highlighted navigation item. */
module Sidebar {
  import opened Text

  datatype NavItem = NavItem(id: string, name: string, href: string, badge: Option<string>)

  function NavigationItems(): (items: seq<NavItem>)
    ensures |items| == 6
  {
    [ NavItem("dashboard", "Log Size Reduction " + "Dashboard", "/", None),
      NavItem("source", "Source Management", "/source", None),
      NavItem("destination", "Destination Management", "/destination", None),
      NavItem("pipeline", "Pipeline Manager", "/pipeline", None),
      NavItem("optimization", "Optimization Initiatives", "/optimization", None),
      NavItem("dehydrated", "Dehydrated Logs", "/dehydrated", None) ]
  }

  /** The width from which the window counts as a desktop. */
  const DesktopWidth := 768

  datatype SidebarFlags = SidebarFlags(isOpen: bool, isCollapsed: bool, activeItem: string)

  function InitialFlags(): (s: SidebarFlags)
    ensures !s.isOpen && !s.isCollapsed && s.activeItem == "dashboard"
  {
    SidebarFlags(false, false, "dashboard")
  }

  /** `handleResize`: open exactly on a desktop-wide window. */
  function Resize(s: SidebarFlags, width: int): (r: SidebarFlags)
    ensures r.isOpen <==> width >= DesktopWidth
    ensures r.isCollapsed == s.isCollapsed && r.activeItem == s.activeItem
  {
    s.(isOpen := width >= DesktopWidth)
  }

  function ToggleSidebar(s: SidebarFlags): (r: SidebarFlags)
    ensures r.isOpen == !s.isOpen
    ensures r.isCollapsed == s.isCollapsed && r.activeItem == s.activeItem
  {
    s.(isOpen := !s.isOpen)
  }

  function ToggleCollapse(s: SidebarFlags): (r: SidebarFlags)
    ensures r.isCollapsed == !s.isCollapsed
    ensures r.isOpen == s.isOpen && r.activeItem == s.activeItem
  {
    s.(isCollapsed := !s.isCollapsed)
  }

  /** `handleItemClick`: the item becomes the active one, and a narrow window
      closes the sidebar. */
  function ItemClick(s: SidebarFlags, itemId: string, width: int): (r: SidebarFlags)
    ensures r.activeItem == itemId && r.isCollapsed == s.isCollapsed
    ensures width < DesktopWidth ==> !r.isOpen
    ensures width >= DesktopWidth ==> r.isOpen == s.isOpen
  {
    if width < DesktopWidth then s.(activeItem := itemId, isOpen := false) else s.(activeItem := itemId)
  }

  lemma TogglesAreInvolutions(s: SidebarFlags)
    ensures ToggleSidebar(ToggleSidebar(s)) == s
    ensures ToggleCollapse(ToggleCollapse(s)) == s
  {
  }

  /** Resizing depends on the width only, so a second resize to the same
      width changes nothing. */
  lemma ResizeIdempotent(s: SidebarFlags, width: int)
    ensures Resize(Resize(s, width), width) == Resize(s, width)
  {
  }

  /** The mount-time resize of a fresh sidebar: open on a desktop, closed on
      a narrow window, never collapsed, on the dashboard. */
  lemma MountedSidebar(width: int)
    ensures Resize(InitialFlags(), width) == SidebarFlags(width >= DesktopWidth, false, "dashboard")
  {
  }

  // ---------------------------------------------------------------------------
  // The highlighted item

  /** `isActive` of an item. */
  predicate IsActive(s: SidebarFlags, item: NavItem) {
    s.activeItem == item.id
  }

  lemma NavigationIdsDistinct()
    ensures forall i, j :: 0 <= i < j < |NavigationItems()| ==> NavigationItems()[i].id != NavigationItems()[j].id
  {
    var items := NavigationItems();
    assert items[0].id[0] == 'd' && items[1].id[0] == 's' && items[2].id[0] == 'd';
    assert items[3].id[0] == 'p' && items[4].id[0] == 'o' && items[5].id[0] == 'd';
    assert items[0].id[1] == 'a' && items[2].id[1] == 'e' && items[5].id[1] == 'e';
    assert items[2].id[2] == 's' && items[5].id[2] == 'h';
  }

  /** At most one item is highlighted, whatever the state. */
  lemma AtMostOneActive(s: SidebarFlags, i: nat, j: nat)
    requires i < j < |NavigationItems()|
    ensures !(IsActive(s, NavigationItems()[i]) && IsActive(s, NavigationItems()[j]))
  {
    NavigationIdsDistinct();
  }

  /** Clicking an item highlights that item. */
  lemma ClickActivates(s: SidebarFlags, k: nat, width: int)
    requires k < |NavigationItems()|
    ensures IsActive(ItemClick(s, NavigationItems()[k].id, width), NavigationItems()[k])
  {
  }

  /** The logout button activates "logout", which is no navigation item, so
      afterwards none is highlighted. */
  lemma LogoutActivatesNone(s: SidebarFlags, width: int)
    ensures forall k :: 0 <= k < |NavigationItems()| ==> !IsActive(ItemClick(s, "logout", width), NavigationItems()[k])
  {
    var items := NavigationItems();
    assert "logout"[0] == 'l';
    assert items[0].id[0] != 'l' && items[1].id[0] != 'l' && items[2].id[0] != 'l';
    assert items[3].id[0] != 'l' && items[4].id[0] != 'l' && items[5].id[0] != 'l';
  }

  // ---------------------------------------------------------------------------
  // The collapsed badge

  /** The collapsed sidebar's badge: "9+" when the badge reads as an integer
      above nine, the badge text otherwise (NaN compares false). */
  function CollapsedBadge(badge: string): (r: string)
    ensures (ParseInt(badge).Some? && ParseInt(badge).value > 9) ==> r == "9+"
    ensures !(ParseInt(badge).Some? && ParseInt(badge).value > 9) ==> r == badge
  {
    var v := ParseInt(badge);
    if v.Some? && v.value > 9 then "9+" else badge
  }

  /** A count written out in decimal is capped at "9+" from ten on. */
  lemma CollapsedBadgeOfCount(n: nat)
    ensures n > 9 ==> CollapsedBadge(NatToString(n)) == "9+"
    ensures n <= 9 ==> CollapsedBadge(NatToString(n)) == NatToString(n)
  {
    ParseIntOfNatToString(n);
  }

  // ---------------------------------------------------------------------------
  // Component state

  class SidebarState {
    var isOpen: bool
    var isCollapsed: bool
    var activeItem: string

    function Flags(): SidebarFlags
      reads this
    {
      SidebarFlags(isOpen, isCollapsed, activeItem)
    }

    constructor ()
      ensures Flags() == InitialFlags()
    {
      isOpen := false;
      isCollapsed := false;
      activeItem := "dashboard";
    }

    /** `handleResize`, run once on mount and on every resize. */
    method HandleResize(width: int)
      modifies this
      ensures Flags() == Resize(old(Flags()), width)
    {
      if width >= DesktopWidth {
        isOpen := true;
      } else {
        isOpen := false;
      }
    }

    method HandleToggleSidebar()
      modifies this
      ensures Flags() == ToggleSidebar(old(Flags()))
    {
      isOpen := !isOpen;
    }

    method HandleToggleCollapse()
      modifies this
      ensures Flags() == ToggleCollapse(old(Flags()))
    {
      isCollapsed := !isCollapsed;
    }

    method HandleItemClick(itemId: string, width: int)
      modifies this
      ensures Flags() == ItemClick(old(Flags()), itemId, width)
    {
      activeItem := itemId;
      if width < DesktopWidth {
        isOpen := false;
      }
    }
  }
}
