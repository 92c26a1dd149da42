/** The sidebar navigation tables and their lookups (src/utils/navigation.tsx):
    which menu a role gets, the page title for a path, and whether a path is
    accessible to a role. Icons are left out; every other field is kept. */
module Navigation {
  import opened Common

  /** `NavigationItem` without its icon component and the unused `children`. */
  datatype NavigationItem = NavigationItem(
    title: string, link: string, isComingSoon: bool, roles: seq<string>, badge: Option<string>)

  const OrgRoles: seq<string> := ["Organization", "Admin"]

  /** `organizationSidebarNavigation`. */
  const OrganizationSidebar: seq<NavigationItem> := [
    NavigationItem("Dashboard", "/organization/home", false, OrgRoles, None),
    NavigationItem("Register Patient", "/organization/register-patient", false, OrgRoles, None),
    NavigationItem("Patient History", "/organization/patient-registration-history", false, OrgRoles, None),
    NavigationItem("Health Records", "/organization/health-record-history", false, OrgRoles, None),
    NavigationItem("Add Health Record", "/organization/create-health-record", false, OrgRoles, Some("New")),
    NavigationItem("Caregivers", "/organization/caregiver-invite-history", false, OrgRoles, None),
    NavigationItem("Reports", "/organization/reports", true, OrgRoles, None),
    NavigationItem("Appointments", "/organization/appointments", true, OrgRoles, Some("Soon")),
    NavigationItem("Pharmacy", "/organization/pharmacy", true, OrgRoles, None),
    NavigationItem("HMO", "/organization/hmo", true, OrgRoles, None),
    NavigationItem("Payments", "/organization/payments", true, OrgRoles, None),
    NavigationItem("Settings", "/organization/settings", false, OrgRoles, None),
    NavigationItem("Logout", "/logout", false, ["Organization", "Admin", "Caregiver", "Patient"], None)
  ]

  /** `caregiverSidebarNavigation`. */
  const CaregiverSidebar: seq<NavigationItem> := [
    NavigationItem("Dashboard", "/caregiver/home", false, ["Caregiver"], None),
    NavigationItem("My Patients", "/caregiver/patients", false, ["Caregiver"], None),
    NavigationItem("Health Records", "/caregiver/health-records", false, ["Caregiver"], None),
    NavigationItem("Appointments", "/caregiver/appointments", true, ["Caregiver"], None),
    NavigationItem("Profile", "/caregiver/profile", false, ["Caregiver"], None),
    NavigationItem("Logout", "/logout", false, ["Caregiver"], None)
  ]

  /** `patientSidebarNavigation`. */
  const PatientSidebar: seq<NavigationItem> := [
    NavigationItem("Dashboard", "/patient/home", false, ["Patient"], None),
    NavigationItem("My Health Records", "/patient/health-records", false, ["Patient"], None),
    NavigationItem("Appointments", "/patient/appointments", true, ["Patient"], None),
    NavigationItem("Prescriptions", "/patient/prescriptions", true, ["Patient"], None),
    NavigationItem("Profile", "/patient/profile", false, ["Patient"], None),
    NavigationItem("Logout", "/logout", false, ["Patient"], None)
  ]

  /** `settingsNavigation`. */
  const SettingsNavigation: seq<NavigationItem> := [
    NavigationItem("Edit Profile", "/organization/edit-profile", false, OrgRoles, None),
    NavigationItem("Privacy & Security", "/organization/privacy-and-security", false, OrgRoles, None),
    NavigationItem("Notifications", "/organization/notifications", false, OrgRoles, None),
    NavigationItem("Contact Us", "/organization/contact-us", false, OrgRoles, None)
  ]

  /** `getNavigationByRole`: the caregiver and patient menus for those two
      roles, the organisation menu for every other string. */
  function NavigationByRole(role: string): (r: seq<NavigationItem>)
    ensures role == "Caregiver" ==> r == CaregiverSidebar
    ensures role == "Patient" ==> r == PatientSidebar
    ensures role != "Caregiver" && role != "Patient" ==> r == OrganizationSidebar
  {
    if role == "Caregiver" then CaregiverSidebar
    else if role == "Patient" then PatientSidebar
    else OrganizationSidebar
  }

  /** Some item of `items` links to `path`. */
  predicate Links(items: seq<NavigationItem>, path: string) {
    exists i :: 0 <= i < |items| && items[i].link == path
  }

  /** `items.find((item) => item.link === path)`: the first item linking to
      `path`, or nothing. */
  function FindByLink(items: seq<NavigationItem>, path: string): (r: Option<NavigationItem>)
    ensures r.None? <==> !Links(items, path)
    ensures r.Some? ==> exists i ::
      && 0 <= i < |items| && items[i] == r.value && r.value.link == path
      && forall j :: 0 <= j < i ==> items[j].link != path
  {
    if items == [] then None
    else if items[0].link == path then Some(items[0])
    else
      var r := FindByLink(items[1..], path);
      assert Links(items, path) ==> Links(items[1..], path) by {
        if Links(items, path) {
          var i :| 0 <= i < |items| && items[i].link == path;
          assert items[1..][i - 1].link == path;
        }
      }
      assert r.Some? ==> exists i ::
        && 0 <= i < |items| && items[i] == r.value && r.value.link == path
        && forall j :: 0 <= j < i ==> items[j].link != path
      by {
        if r.Some? {
          var i :| 0 <= i < |items[1..]| && items[1..][i] == r.value && r.value.link == path
            && forall j :: 0 <= j < i ==> items[1..][j].link != path;
          assert items[i + 1] == r.value;
          forall j | 0 <= j < i + 1 ensures items[j].link != path {
            if j > 0 { assert items[j] == items[1..][j - 1]; }
          }
        }
      }
      r
  }

  /** `getPageTitle`: the matching item's title, or "Dashboard" when there
      is none or its title is empty (`currentPage?.title || "Dashboard"`). */
  function PageTitle(pathname: string, role: string): (r: string)
    ensures !Links(NavigationByRole(role), pathname) ==> r == "Dashboard"
    ensures Links(NavigationByRole(role), pathname) ==>
      exists i :: 0 <= i < |NavigationByRole(role)| && NavigationByRole(role)[i].link == pathname
        && r == OrElse(Some(NavigationByRole(role)[i].title), "Dashboard")
  {
    var found := FindByLink(NavigationByRole(role), pathname);
    OrElse(if found.Some? then Some(found.value.title) else None, "Dashboard")
  }

  /** `isRouteAccessible`: the matching item's roles include the role. Only
      a listed path can be accessible, and only through an item that names
      the role. */
  predicate IsRouteAccessible(pathname: string, userRole: string)
    ensures IsRouteAccessible(pathname, userRole) ==>
      && Links(NavigationByRole(userRole), pathname)
      && exists i :: 0 <= i < |NavigationByRole(userRole)| && NavigationByRole(userRole)[i].link == pathname
           && userRole in NavigationByRole(userRole)[i].roles
  {
    var route := FindByLink(NavigationByRole(userRole), pathname);
    route.Some? && userRole in route.value.roles
  }

  /** Every item of the list names `role` among its roles. */
  predicate AllAllow(items: seq<NavigationItem>, role: string) {
    forall i :: 0 <= i < |items| ==> role in items[i].roles
  }

  /** No item of the list names `role`. */
  predicate NoneAllow(items: seq<NavigationItem>, role: string) {
    forall i :: 0 <= i < |items| ==> role !in items[i].roles
  }

  /** Links are pairwise distinct. */
  predicate DistinctLinks(items: seq<NavigationItem>) {
    forall i, j :: 0 <= i < j < |items| ==> items[i].link != items[j].link
  }

  /** A path that is not one of the role's menu links is never accessible. */
  lemma UnlistedPathInaccessible(pathname: string, role: string)
    requires !Links(NavigationByRole(role), pathname)
    ensures !IsRouteAccessible(pathname, role)
  {
  }

  /** In a list whose items all allow `role`, a path is accessible exactly
      when it is one of the links. */
  lemma AccessibleIffListed(items: seq<NavigationItem>, role: string, pathname: string)
    requires items == NavigationByRole(role) && AllAllow(items, role)
    ensures IsRouteAccessible(pathname, role) <==> Links(items, pathname)
  {
    var route := FindByLink(items, pathname);
    if route.Some? {
      var i :| 0 <= i < |items| && items[i] == route.value && route.value.link == pathname
        && forall j :: 0 <= j < i ==> items[j].link != pathname;
      assert role in items[i].roles;
    }
  }

  /** For the four roles the menus are written for, every link of the
      role's menu is accessible, and nothing else is. */
  lemma KnownRolesReachTheirLinks(role: string, pathname: string)
    requires role in ["Organization", "Admin", "Caregiver", "Patient"]
    ensures IsRouteAccessible(pathname, role) <==> Links(NavigationByRole(role), pathname)
  {
    var items := NavigationByRole(role);
    assert AllAllow(items, role) by {
      if role == "Caregiver" || role == "Patient" {
      } else {
        assert items == OrganizationSidebar;
        forall i | 0 <= i < |items| ensures role in items[i].roles {
          assert items[i].roles == OrgRoles || items[i].roles == ["Organization", "Admin", "Caregiver", "Patient"];
        }
      }
    }
    AccessibleIffListed(items, role, pathname);
  }

  /** Any other role falls back to the organisation menu, none of whose
      items lists it, so no path is accessible. */
  lemma OtherRolesReachNothing(role: string, pathname: string)
    requires role !in ["Organization", "Admin", "Caregiver", "Patient"]
    ensures !IsRouteAccessible(pathname, role)
  {
    var items := NavigationByRole(role);
    assert items == OrganizationSidebar;
    assert NoneAllow(items, role) by {
      forall i | 0 <= i < |items| ensures role !in items[i].roles {
        assert items[i].roles == OrgRoles || items[i].roles == ["Organization", "Admin", "Caregiver", "Patient"];
      }
    }
    var route := FindByLink(items, pathname);
    if route.Some? {
      var i :| 0 <= i < |items| && items[i] == route.value && route.value.link == pathname
        && forall j :: 0 <= j < i ==> items[j].link != pathname;
      assert role !in items[i].roles;
    }
  }

  /** Each sidebar menu ends with the "Logout" item at "/logout". */
  lemma LogoutIsLast(role: string)
    ensures |NavigationByRole(role)| > 0
    ensures Last(NavigationByRole(role)).title == "Logout"
    ensures Last(NavigationByRole(role)).link == "/logout"
  {
  }

  function Last(items: seq<NavigationItem>): NavigationItem
    requires |items| > 0
  {
    items[|items| - 1]
  }

  /** Within each table the links are pairwise distinct, so `find` has at
      most one candidate. */
  lemma OrganizationLinksDistinct()
    ensures DistinctLinks(OrganizationSidebar)
  {
  }

  lemma CaregiverLinksDistinct()
    ensures DistinctLinks(CaregiverSidebar)
  {
  }

  lemma PatientLinksDistinct()
    ensures DistinctLinks(PatientSidebar)
  {
  }

  lemma SettingsLinksDistinct()
    ensures DistinctLinks(SettingsNavigation)
  {
  }

  /** With distinct links, `find` on an item's own link gives that item. */
  lemma FindOwnLink(items: seq<NavigationItem>, i: nat)
    requires DistinctLinks(items) && i < |items|
    ensures FindByLink(items, items[i].link) == Some(items[i])
  {
    var found := FindByLink(items, items[i].link);
    var k :| && 0 <= k < |items| && items[k] == found.value && found.value.link == items[i].link
      && forall j :: 0 <= j < k ==> items[j].link != items[i].link;
    assert k == i;
  }

  /** Every item has a non-empty title. */
  predicate NonEmptyTitles(items: seq<NavigationItem>) {
    forall i :: 0 <= i < |items| ==> items[i].title != ""
  }

  /** On a menu link, the page title is that item's own title. */
  lemma TitleOfListedPath(role: string, i: nat)
    requires i < |NavigationByRole(role)|
    ensures PageTitle(NavigationByRole(role)[i].link, role) == NavigationByRole(role)[i].title
  {
    var items := NavigationByRole(role);
    if role == "Caregiver" {
      CaregiverLinksDistinct();
    } else if role == "Patient" {
      PatientLinksDistinct();
    } else {
      OrganizationLinksDistinct();
    }
    assert NonEmptyTitles(items);
    FindOwnLink(items, i);
  }
}
