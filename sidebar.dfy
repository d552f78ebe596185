/** The sidebar's menu choice (`src/components/layout/Sidebar.tsx`): staff
    see the admin menu while they are inside the admin area; everybody
    else, and staff elsewhere, see the customer menu. */
module Sidebar {
  import opened Common
  import opened Types

  datatype NavItem = NavItem(to: string, title: string)

  const CustomerNavItems: seq<NavItem> := [
    NavItem("/dashboard", "Dashboard"), NavItem("/book", "New Booking"),
    NavItem("/deliveries", "My Deliveries"), NavItem("/history", "History"),
    NavItem("/wallet", "Wallet"), NavItem("/addresses", "Address Book"),
    NavItem("/team", "Team"), NavItem("/settings", "Settings")]

  const AdminNavItems: seq<NavItem> := [
    NavItem("/admin", "Dashboard"), NavItem("/admin/bookings", "All Bookings"),
    NavItem("/admin/tenants", "Tenants"), NavItem("/admin/drivers", "Drivers"),
    NavItem("/admin/pricing", "Pricing"), NavItem("/admin/analytics", "Analytics"),
    NavItem("/admin/audit", "Audit Log"), NavItem("/admin/settings", "Settings")]

  /** Every admin menu entry leads into the admin area, and no customer one
      does. */
  lemma MenusApart()
    ensures forall i :: 0 <= i < |AdminNavItems| ==> StartsWith(AdminNavItems[i].to, "/admin")
    ensures forall i :: 0 <= i < |CustomerNavItems| ==> !StartsWith(CustomerNavItems[i].to, "/admin")
  {
    forall i | 0 <= i < |CustomerNavItems|
      ensures !StartsWith(CustomerNavItems[i].to, "/admin")
    {
      var p := CustomerNavItems[i].to;
      assert |p| < 6 || p[3] != 'm';
    }
  }

  /** `navItems`: the admin menu exactly when the profile is staff and the
      path starts with `/admin`. */
  function NavItems(profile: Option<Profile>, path: string): (r: seq<NavItem>)
    ensures r == AdminNavItems <==> IsStaff(profile) && StartsWith(path, "/admin")
    ensures r == CustomerNavItems <==> !(IsStaff(profile) && StartsWith(path, "/admin"))
  {
    assert AdminNavItems[0] != CustomerNavItems[0];
    if IsStaff(profile) && StartsWith(path, "/admin") then AdminNavItems else CustomerNavItems
  }

  /** Without a profile, or as a customer or driver, the customer menu shows
      on every path, the admin area included. */
  lemma NonStaffSeeCustomerMenu(profile: Option<Profile>, path: string)
    requires profile.None? || profile.value.role == Customer || profile.value.role == Driver
    ensures NavItems(profile, path) == CustomerNavItems
  {
  }
}
