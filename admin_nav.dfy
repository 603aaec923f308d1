/** The admin panel's navigation (components/admin/admin-sidebar.tsx and
    the mobile menu of components/admin/admin-header.tsx): which item is
    highlighted for the current path, the name and avatar fallbacks, and the
    mobile menu closing when a link is followed. */
module AdminNav {
  import opened Types
  import Forms

  datatype NavItem = NavItem(caption: string, href: string)

  /** components/admin/admin-sidebar.tsx:23-33. */
  function SidebarItems(): seq<NavItem> {
    [NavItem("Dashboard", "/admin"), NavItem("Classes", "/admin/classes"),
     NavItem("Registrations", "/admin/registrations"), NavItem("Events", "/admin/events"),
     NavItem("Gallery", "/admin/gallery"), NavItem("Contact Messages", "/admin/messages"),
     NavItem("Donations", "/admin/donations"), NavItem("Volunteers", "/admin/volunteers"),
     NavItem("Settings", "/admin/settings")]
  }

  /** components/admin/admin-header.tsx:41-51: the same links, one label
      shorter. */
  function HeaderItems(): seq<NavItem> {
    SidebarItems()[5 := NavItem("Messages", "/admin/messages")]
  }

  function Hrefs(items: seq<NavItem>): (hs: seq<string>)
    ensures |hs| == |items| && forall i :: 0 <= i < |items| ==> hs[i] == items[i].href
  {
    seq(|items|, i requires 0 <= i < |items| => items[i].href)
  }

  /** `pathname.startsWith(href)`. */
  predicate StartsWith(pathname: string, href: string) {
    |href| <= |pathname| && pathname[..|href|] == href
  }

  /** The highlight rule (components/admin/admin-sidebar.tsx:50,
      components/admin/admin-header.tsx:83): "/admin" only on an exact
      match, the others on an exact match or a raw text prefix. */
  predicate IsActive(pathname: string, href: string) {
    pathname == href || (href != "/admin" && StartsWith(pathname, href))
  }

  /** A path that starts with a link agrees with it character by character. */
  lemma {:induction false} SharedCharacter(pathname: string, href: string, k: nat)
    requires StartsWith(pathname, href) && k < |href|
    ensures pathname[k] == href[k]
  {
    assert pathname[..|href|][k] == pathname[k];
  }

  /** Past "/admin/", the other links all differ in their first character. */
  lemma {:induction false} OtherHrefsDiverge(i: nat, j: nat)
    requires 1 <= i < |SidebarItems()| && 1 <= j < |SidebarItems()|
    ensures |SidebarItems()[i].href| > 7 && |SidebarItems()[j].href| > 7
    ensures SidebarItems()[i].href[7] == SidebarItems()[j].href[7] ==> i == j
  {
  }

  /** On "/admin" itself only the dashboard is highlighted. */
  lemma {:induction false} OnlyDashboardAtRoot(k: nat)
    requires 1 <= k < |SidebarItems()|
    ensures !IsActive("/admin", SidebarItems()[k].href)
  {
  }

  /** At most one item is highlighted for any path. */
  lemma {:induction false} AtMostOneActive(pathname: string, i: nat, j: nat)
    requires i < |SidebarItems()| && j < |SidebarItems()|
    requires IsActive(pathname, SidebarItems()[i].href) && IsActive(pathname, SidebarItems()[j].href)
    ensures i == j
  {
    var items := SidebarItems();
    if i == 0 || j == 0 {
      assert pathname == "/admin";
      if i != 0 { OnlyDashboardAtRoot(i); }
      if j != 0 { OnlyDashboardAtRoot(j); }
    } else {
      OtherHrefsDiverge(i, j);
      SharedCharacter(pathname, items[i].href, 7);
      SharedCharacter(pathname, items[j].href, 7);
    }
  }

  /** The header's menu highlights the same item as the sidebar. */
  lemma {:induction false} HeaderMatchesSidebar(pathname: string)
    ensures Hrefs(HeaderItems()) == Hrefs(SidebarItems())
    ensures forall i :: 0 <= i < |HeaderItems()| ==>
              (IsActive(pathname, HeaderItems()[i].href) <==> IsActive(pathname, SidebarItems()[i].href))
  {
    assert forall i :: 0 <= i < |HeaderItems()| ==> HeaderItems()[i].href == SidebarItems()[i].href;
  }

  /** The prefix test is on raw text: "/admin/classesX" highlights Classes,
      and a page below a section highlights that section. */
  lemma {:induction false} RawPrefixMatches()
    ensures IsActive("/admin/classesX", SidebarItems()[1].href)
    ensures IsActive("/admin/classes/new", SidebarItems()[1].href)
    ensures !IsActive("/admin/classes", SidebarItems()[0].href)
  {
    assert "/admin/classesX"[..14] == "/admin/classes";
    assert "/admin/classes/new"[..14] == "/admin/classes";
  }

  /** The sidebar avatar letter `profile?.full_name?.[0] || "A"`
      (components/admin/admin-sidebar.tsx:72). */
  function AvatarLetter(profile: Option<Profile>): (s: string)
    ensures |s| == 1
    ensures profile.Some? && Forms.Truthy(profile.value.fullName) ==> s == [profile.value.fullName.value[0]]
    ensures !(profile.Some? && Forms.Truthy(profile.value.fullName)) ==> s == "A"
  {
    if profile.Some? && Forms.Truthy(profile.value.fullName) then [profile.value.fullName.value[0]] else "A"
  }

  /** `profile?.full_name || fallback` (components/admin/admin-sidebar.tsx:75,
      components/admin/admin-header.tsx:126, 131). */
  function DisplayName(profile: Option<Profile>, fallback: string): (s: string)
    ensures profile.Some? && Forms.Truthy(profile.value.fullName) ==> s == profile.value.fullName.value
    ensures !(profile.Some? && Forms.Truthy(profile.value.fullName)) ==> s == fallback
  {
    if profile.Some? && Forms.Truthy(profile.value.fullName) then profile.value.fullName.value else fallback
  }

  /** The sidebar and the dropdown fall back to "Admin"; the header's
      button falls back to the signed-in user's e-mail. The letter is the
      first letter of the shown name. */
  lemma {:induction false} NameFallbacks(profile: Option<Profile>, userEmail: string)
    ensures DisplayName(profile, "Admin") != ""
    ensures AvatarLetter(profile) == [DisplayName(profile, "Admin")[0]]
    ensures DisplayName(profile, "Admin") == "Admin" || DisplayName(profile, "Admin") == DisplayName(profile, userEmail)
  {
  }

  /** The header's mobile menu (components/admin/admin-header.tsx:56, 70, 91). */
  class HeaderMenu {
    var mobileMenuOpen: bool

    constructor ()
      ensures !mobileMenuOpen
    {
      mobileMenuOpen := false;
    }

    /** The sheet's own open/close. */
    method OnOpenChange(open: bool)
      modifies this
      ensures mobileMenuOpen == open
    {
      mobileMenuOpen := open;
    }

    /** Following any menu link closes the menu. */
    method OnLinkClick(item: NavItem)
      modifies this
      ensures !mobileMenuOpen
    {
      mobileMenuOpen := false;
    }
  }
}
