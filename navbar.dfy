/** The navigation bar: the menu for the signed-in role, the active-link
    test, the mobile-menu toggle and the menu's own logout. */
module Navbar {
  import opened Wrappers
  import opened Js
  import opened Text
  import opened Storage
  import opened AuthContext

  /** A link of the menu; `logsOut` marks the item whose click runs `handleLogOut`. */
  datatype NavItem = NavItem(to: string, title: string, logsOut: bool)

  /** `authUser?.role || localStorage.getItem("role")`. */
  function EffectiveRole(authUser: Option<AuthUser>, storedRole: JsString): (r: JsString)
    ensures authUser.Some? && authUser.value.role != "" ==> r == Str(authUser.value.role)
    ensures (authUser.None? || authUser.value.role == "") ==> r == storedRole
  {
    Or(if authUser.Some? then Str(authUser.value.role) else Undefined, storedRole)
  }

  /** `authUser?.userId || localStorage.getItem("userId")`. */
  function EffectiveUserId(authUser: Option<AuthUser>, storedUserId: JsString): (r: JsString)
    ensures authUser.Some? && authUser.value.userId != "" ==> r == Str(authUser.value.userId)
    ensures (authUser.None? || authUser.value.userId == "") ==> r == storedUserId
  {
    Or(if authUser.Some? then Str(authUser.value.userId) else Undefined, storedUserId)
  }

  /** `role.trim().toLowerCase()`. */
  function NormalisedRole(role: string): string {
    ToLower(Trim(role))
  }

  const GuestMenu: seq<NavItem> := [
    NavItem("/login", "Login", false),
    NavItem("/register", "Register", false)]

  function PatientMenu(userId: JsString): seq<NavItem> {
    [ NavItem("/", "Home", false),
      NavItem("/appointments", "Appointments", false),
      NavItem("/medical-record/" + ToString(Or(userId, Str(""))), "Medical Record", false),
      NavItem("/login", "Logout", true) ]
  }

  const DoctorMenu: seq<NavItem> := [
    NavItem("/", "Home", false),
    NavItem("/appointments", "Appointments", false),
    NavItem("/daily-plan", "Daily plan", false),
    NavItem("/logout", "Logout", true)]

  /** `navItems`, chosen by the role and the user id in effect. */
  function NavItems(role: JsString, userId: JsString): (r: seq<NavItem>)
    ensures !Truthy(role) ==>
      && |r| == 2 && r[0].title == "Login" && r[1].title == "Register"
      && r[0].to == "/login" && r[1].to == "/register"
    ensures Truthy(role) && NormalisedRole(role.s) == "patient" ==>
      && |r| == 4 && r[0].title == "Home" && r[1].title == "Appointments"
      && r[2].title == "Medical Record" && r[3].title == "Logout"
      && r[2].to == "/medical-record/" + (if Truthy(userId) then userId.s else "")
      && r[3].logsOut
    ensures Truthy(role) && NormalisedRole(role.s) == "doctor" ==>
      && |r| == 4 && r[0].title == "Home" && r[1].title == "Appointments"
      && r[2].title == "Daily plan" && r[3].title == "Logout"
      && r[3].to == "/logout" && r[3].logsOut
    ensures Truthy(role) && NormalisedRole(role.s) != "patient" && NormalisedRole(role.s) != "doctor" ==>
      r == []
  {
    if !Truthy(role) then GuestMenu
    else if NormalisedRole(role.s) == "patient" then PatientMenu(userId)
    else if NormalisedRole(role.s) == "doctor" then DoctorMenu
    else []
  }

  /** A non-empty role made of whitespace only normalises to the empty string
      and gets no menu at all. */
  lemma BlankRoleHasNoMenu(role: string, userId: JsString)
    requires role != "" && IsBlank(role)
    ensures NavItems(Str(role), userId) == []
  {
  }

  /** Trimming removes one space on each side of a text that does not
      itself start or end with whitespace. */
  lemma TrimPadded(core: string)
    requires core != [] && !IsJsWhitespace(core[0]) && !IsJsWhitespace(core[|core| - 1])
    ensures Trim(" " + core + " ") == core
  {
    var padded := " " + core + " ";
    assert padded[1..] == core + " ";
    assert TrimStart(core + " ") == core + " ";
    assert TrimStart(padded) == core + " ";
    assert (core + " ")[..|core|] == core;
    assert TrimEnd(core) == core;
    assert TrimEnd(core + " ") == core;
  }

  /** Spaces around a role do not change the menu it selects. */
  lemma PaddedRoleSameMenu(core: string, userId: JsString)
    requires core != [] && !IsJsWhitespace(core[0]) && !IsJsWhitespace(core[|core| - 1])
    ensures NavItems(Str(" " + core + " "), userId) == NavItems(Str(core), userId)
  {
    TrimPadded(core);
    assert TrimStart(core) == core;
    assert TrimEnd(core) == core;
    assert NormalisedRole(" " + core + " ") == NormalisedRole(core);
  }

  lemma CapitalisedPatient()
    ensures NormalisedRole("Patient") == "patient"
  {
    TrimUnpadded("Patient");
    LowerPatient();
  }

  lemma LowerPatient()
    ensures ToLower("Patient") == "patient"
  {
    var r := ToLower("Patient");
    assert r[0] == 'p' && r[1] == 'a' && r[2] == 't' && r[3] == 'i';
    assert r[4] == 'e' && r[5] == 'n' && r[6] == 't';
  }

  /** The role is matched without regard to ASCII case: lower-casing it
      first selects the same menu. */
  lemma RoleCaseInsensitive(role: string, userId: JsString)
    ensures NavItems(Str(ToLower(role)), userId) == NavItems(Str(role), userId)
  {
    TrimToLower(role);
    ToLowerIdempotent(Trim(role));
    assert NormalisedRole(ToLower(role)) == NormalisedRole(role);
  }

  /** "Patient", as capitalised, selects the patient menu. */
  lemma PatientRoleCaseInsensitive(userId: JsString)
    ensures NavItems(Str("Patient"), userId) == PatientMenu(userId)
  {
    CapitalisedPatient();
  }

  /** " Patient ", as the role may be stored, selects the patient menu. */
  lemma PaddedPatientRole(userId: JsString)
    ensures NavItems(Str(" Patient "), userId) == PatientMenu(userId)
  {
    TrimPadded("Patient");
    assert " " + "Patient" + " " == " Patient ";
    LowerPatient();
    assert NormalisedRole(" Patient ") == "patient";
  }

  /** `NavItem`'s highlight: the current path equals the link's target. */
  predicate IsActive(pathname: string, item: NavItem) {
    pathname == item.to
  }

  /** Whatever the role, user id and path, at most one item of the menu the
      bar shows is highlighted: the targets of each menu are distinct. */
  lemma OneActiveItem(role: JsString, userId: JsString, pathname: string, i: nat, j: nat)
    requires i < |NavItems(role, userId)| && j < |NavItems(role, userId)|
    requires IsActive(pathname, NavItems(role, userId)[i]) && IsActive(pathname, NavItems(role, userId)[j])
    ensures i == j
  {
    var items := NavItems(role, userId);
    assert forall a, b :: 0 <= a < b < |items| ==> items[a].to != items[b].to by {
      if items == PatientMenu(userId) {
        var record := items[2].to;
        assert |record| >= 16 && record[..16] == "/medical-record/";
      }
    }
  }

  /** The bar's own state and what its actions touch. */
  class NavbarState {
    const storage: LocalStorage
    var showMobileMenu: bool
    var navigations: seq<string>

    constructor (storage: LocalStorage)
      ensures this.storage == storage && !showMobileMenu && navigations == []
    {
      this.storage := storage;
      showMobileMenu, navigations := false, [];
    }

    /** The items shown for the context's user and the store's keys. */
    function Items(authUser: Option<AuthUser>): (r: seq<NavItem>)
      reads this, storage
      ensures authUser.Some? && authUser.value.role != "" && authUser.value.userId != "" ==>
        r == NavItems(Str(authUser.value.role), Str(authUser.value.userId))
      ensures authUser.None? ==> r == NavItems(storage.GetItem("role"), storage.GetItem("userId"))
    {
      NavItems(EffectiveRole(authUser, storage.GetItem("role")),
               EffectiveUserId(authUser, storage.GetItem("userId")))
    }

    /** `toggleMobileMenu`. */
    method ToggleMobileMenu()
      modifies this`showMobileMenu
      ensures showMobileMenu == !old(showMobileMenu)
    {
      showMobileMenu := !showMobileMenu;
    }

    /** `handleLogOut`: the whole store is cleared, not only the session keys. */
    method LogOut()
      modifies this`navigations, storage
      ensures storage.items == map[]
      ensures RestoredUser(storage.items) == None
      ensures navigations == old(navigations) + ["/login"]
    {
      storage.Clear();
      navigations := navigations + ["/login"];
    }
  }
}
