/** The signed-in header: the account menu each role sees, the role badge,
    and the open or closed state of the menus. */
module InternalHeader {
  /** An entry of the account menu; `signOut` marks the one that logs out. */
  datatype NavItem = NavItem(name: string, href: string, signOut: bool)

  const ProfileItem := NavItem("Profile", "/profile", false)
  const SignOutItem := NavItem("Sign out", "#", true)
  const OrderManagementItem := NavItem("Order Management", "/admin/orders", false)
  const AllInquiriesItem := NavItem("All Inquiries", "/inquiries", false)
  const AdminDashboardItem := NavItem("Admin Dashboard", "/admin/dashboard", false)
  const BackOfficeDashboardItem := NavItem("Back Office Dashboard", "/admin/dashboard", false)
  const SubAdminDashboardItem := NavItem("Sub Admin Dashboard", "/admin/dashboard", false)

  /** Items every role ends with. */
  const BaseNavigation := [ProfileItem, SignOutItem]

  /** Items a customer (any role other than the three staff roles) sees. */
  const CustomerNavigation := [NavItem("Dashboard", "/dashboard", false), NavItem("New Inquiry", "/inquiry/new", false),
                               NavItem("My Inquiries", "/inquiries", false), NavItem("My Orders", "/orders", false)]

  predicate IsStaff(role: string) {
    role == "admin" || role == "backoffice" || role == "subadmin"
  }

  /** `getRoleBasedNavigation`; `signedIn` is whether there is a user. */
  function Navigation(signedIn: bool, role: string): (r: seq<NavItem>)
    ensures !signedIn ==> r == []
    ensures signedIn ==> |r| >= 2 && r[|r| - 2..] == BaseNavigation
    ensures signedIn && role == "admin" ==>
      r == [AdminDashboardItem, OrderManagementItem, AllInquiriesItem] + BaseNavigation
    ensures signedIn && role == "backoffice" ==>
      r == [BackOfficeDashboardItem, OrderManagementItem, AllInquiriesItem] + BaseNavigation
    ensures signedIn && role == "subadmin" ==> r == [SubAdminDashboardItem, AllInquiriesItem] + BaseNavigation
    ensures signedIn && !IsStaff(role) ==> r == CustomerNavigation + BaseNavigation
  {
    if !signedIn then []
    else if role == "admin" then [AdminDashboardItem, OrderManagementItem, AllInquiriesItem] + BaseNavigation
    else if role == "backoffice" then [BackOfficeDashboardItem, OrderManagementItem, AllInquiriesItem] + BaseNavigation
    else if role == "subadmin" then [SubAdminDashboardItem, AllInquiriesItem] + BaseNavigation
    else CustomerNavigation + BaseNavigation
  }

  /** Order Management is offered to administrators and back office only,
      and exactly one entry logs out: the last. */
  lemma NavigationProperties(signedIn: bool, role: string)
    ensures OrderManagementItem in Navigation(signedIn, role) <==> signedIn && (role == "admin" || role == "backoffice")
    ensures signedIn ==> forall i :: 0 <= i < |Navigation(signedIn, role)| ==>
      (Navigation(signedIn, role)[i].signOut <==> i == |Navigation(signedIn, role)| - 1)
  {
    var r := Navigation(signedIn, role);
    if signedIn && !(role == "admin" || role == "backoffice") {
      assert forall i :: 0 <= i < |r| ==> r[i] != OrderManagementItem;
    }
  }

  /** The badge under the user's name. */
  function Badge(role: string): (b: string)
    ensures role == "admin" ==> b == "Admin"
    ensures role == "backoffice" ==> b == "Back Office"
    ensures role == "subadmin" ==> b == "Sub Admin"
    ensures !IsStaff(role) ==> b == "Customer"
  {
    if role == "admin" then "Admin"
    else if role == "backoffice" then "Back Office"
    else if role == "subadmin" then "Sub Admin"
    else "Customer"
  }

  /** The header's state: the session and the router's location. */
  class Header {
    var signedIn: bool
    var role: string
    var userMenuOpen: bool
    var mobileMenuOpen: bool
    var location: string

    constructor (signedIn: bool, role: string, location: string)
      ensures this.signedIn == signedIn && this.role == role && this.location == location
      ensures !userMenuOpen && !mobileMenuOpen
    {
      this.signedIn := signedIn;
      this.role := role;
      this.location := location;
      userMenuOpen := false;
      mobileMenuOpen := false;
    }

    /** A click on the account button. */
    method ToggleUserMenu()
      modifies this
      ensures userMenuOpen == !old(userMenuOpen)
      ensures signedIn == old(signedIn) && role == old(role) && location == old(location)
      ensures mobileMenuOpen == old(mobileMenuOpen)
    {
      userMenuOpen := !userMenuOpen;
    }

    /** The pointer leaving the open menu, or a click on one of its links.
        The link's own navigation is not part of the model, so the location
        stays as it was. */
    method CloseUserMenu()
      modifies this
      ensures !userMenuOpen
      ensures signedIn == old(signedIn) && role == old(role) && location == old(location)
      ensures mobileMenuOpen == old(mobileMenuOpen)
    {
      userMenuOpen := false;
    }

    method SetMobileMenu(open: bool)
      modifies this
      ensures mobileMenuOpen == open
      ensures signedIn == old(signedIn) && role == old(role) && location == old(location)
      ensures userMenuOpen == old(userMenuOpen)
    {
      mobileMenuOpen := open;
    }

    /** `handleLogout`: the session ends, the menu closes, and the home
        page is shown. */
    method Logout()
      modifies this
      ensures !signedIn && !userMenuOpen && location == "/"
      ensures role == old(role) && mobileMenuOpen == old(mobileMenuOpen)
      ensures Navigation(signedIn, role) == []
    {
      signedIn := false;
      userMenuOpen := false;
      location := "/";
    }
  }
}
