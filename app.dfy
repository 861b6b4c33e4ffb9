/**
 * The application shell: the role-gated navigation menu, the registration
 * allow-list, the route table, the top-level state (signed-in user, tenant,
 * patient list) and the patients page's list/form toggle.
 */
module App {
  import opened Types
  import opened Seqs
  import opened Strings
  import opened PatientForm

  /** One entry of the navigation menu and the roles allowed to see it. */
  datatype MenuItem = MenuItem(title: string, path: string, roles: seq<UserRole>)

  const DashboardItem: MenuItem := MenuItem("Dashboard", "/", AllRoles)
  const PatientsItem: MenuItem :=
    MenuItem("Patients", "/patients", [SuperAdmin, HospitalAdmin, Doctor, Nurse, Receptionist])
  const PrescriptionsItem: MenuItem :=
    MenuItem("Prescriptions", "/prescriptions", [Doctor, Pharmacist])
  const SettingsItem: MenuItem := MenuItem("Settings", "/settings", [HospitalAdmin, SuperAdmin])

  /** `menuItems`, in display order. */
  const MenuItems: seq<MenuItem> := [DashboardItem, PatientsItem, PrescriptionsItem, SettingsItem]

  /** `canAccess`: the item's role list includes the user's role. */
  predicate CanAccess(roles: seq<UserRole>, role: UserRole)
  {
    role in roles
  }

  /** The menu a user sees; the desktop sidebar and the mobile overlay both
      render this same filtered list. */
  function VisibleMenu(role: UserRole): seq<MenuItem>
  {
    Filter(MenuItems, AccessTest(role))
  }

  /** The test `item => canAccess(item.roles)` for one role. */
  function AccessTest(role: UserRole): MenuItem -> bool
  {
    (item: MenuItem) => CanAccess(item.roles, role)
  }

  /** The menu is exactly the items whose role list holds the role, in table order. */
  lemma VisibleMenuSpec(role: UserRole, item: MenuItem)
    ensures item in VisibleMenu(role) <==> item in MenuItems && role in item.roles
    ensures IsSubsequence(VisibleMenu(role), MenuItems)
  {
    FilterMembership(MenuItems, AccessTest(role), item);
    FilterIsSubsequence(MenuItems, AccessTest(role));
  }

  /** The filter over the four-entry table, taken one entry at a time. */
  lemma MenuSteps(role: UserRole)
    ensures VisibleMenu(role) ==
      (if role in DashboardItem.roles then [DashboardItem] else [])
      + Filter([PatientsItem, PrescriptionsItem, SettingsItem], AccessTest(role))
    ensures Filter([PatientsItem, PrescriptionsItem, SettingsItem], AccessTest(role)) ==
      (if role in PatientsItem.roles then [PatientsItem] else [])
      + Filter([PrescriptionsItem, SettingsItem], AccessTest(role))
    ensures Filter([PrescriptionsItem, SettingsItem], AccessTest(role)) ==
      (if role in PrescriptionsItem.roles then [PrescriptionsItem] else [])
      + Filter([SettingsItem], AccessTest(role))
    ensures Filter([SettingsItem], AccessTest(role)) ==
      (if role in SettingsItem.roles then [SettingsItem] else [])
  {
    var rest1 := [PatientsItem, PrescriptionsItem, SettingsItem];
    var rest2 := [PrescriptionsItem, SettingsItem];
    var rest3 := [SettingsItem];
    assert MenuItems[1..] == rest1 && rest1[1..] == rest2 && rest2[1..] == rest3 && rest3[1..] == [];
  }

  /** Every role sees the dashboard, and sees it first. */
  lemma DashboardAlwaysFirst(role: UserRole)
    ensures |VisibleMenu(role)| >= 1 && VisibleMenu(role)[0] == DashboardItem
  {
    AllRolesComplete(role);
    MenuSteps(role);
  }

  /** A doctor sees Dashboard, Patients and Prescriptions. */
  lemma DoctorMenu()
    ensures VisibleMenu(Doctor) == [DashboardItem, PatientsItem, PrescriptionsItem]
  {
    AllRolesComplete(Doctor);
    MenuSteps(Doctor);
  }

  /** A nurse sees exactly Dashboard and Patients. */
  lemma NurseMenu()
    ensures VisibleMenu(Nurse) == [DashboardItem, PatientsItem]
  {
    AllRolesComplete(Nurse);
    MenuSteps(Nurse);
  }

  /** A pharmacist sees exactly Dashboard and Prescriptions. */
  lemma PharmacistMenu()
    ensures VisibleMenu(Pharmacist) == [DashboardItem, PrescriptionsItem]
  {
    AllRolesComplete(Pharmacist);
    MenuSteps(Pharmacist);
  }

  /** Only hospital and super administrators see Settings. */
  lemma SettingsOnlyForAdmins(role: UserRole)
    ensures SettingsItem in VisibleMenu(role) <==> role == HospitalAdmin || role == SuperAdmin
  {
    VisibleMenuSpec(role, SettingsItem);
  }

  /** `canRegister`: the separate allow-list for registering patients. */
  predicate CanRegister(role: UserRole)
  {
    role in [SuperAdmin, HospitalAdmin, Receptionist]
  }

  /** Whoever may register patients also sees the Patients page. */
  lemma RegistrantsSeePatients(role: UserRole)
    ensures CanRegister(role) ==> PatientsItem in VisibleMenu(role)
  {
    VisibleMenuSpec(role, PatientsItem);
  }

  /** Seeing the Patients page does not grant registration: doctors and
      nurses see it and may not register; pharmacists may do neither. */
  lemma PatientsPageDoesNotGrantRegistration()
    ensures PatientsItem in VisibleMenu(Doctor) && !CanRegister(Doctor)
    ensures PatientsItem in VisibleMenu(Nurse) && !CanRegister(Nurse)
    ensures PatientsItem !in VisibleMenu(Pharmacist) && !CanRegister(Pharmacist)
  {
    DoctorMenu();
    NurseMenu();
    PharmacistMenu();
    assert [DashboardItem, PatientsItem, PrescriptionsItem][1] == PatientsItem;
    assert [DashboardItem, PatientsItem][1] == PatientsItem;
  }

  /** What the main area shows. */
  datatype Screen = LoginScreen | DashboardScreen | PatientsScreen

  /** The path without its trailing slashes. */
  function StripTrailingSlashes(path: string): (r: string)
    ensures |r| <= |path| && r == path[..|r|]
    ensures r == [] || r[|r| - 1] != '/'
    ensures forall i :: |r| <= i < |path| ==> path[i] == '/'
    decreases |path|
  {
    if path != [] && path[|path| - 1] == '/' then StripTrailingSlashes(path[..|path| - 1]) else path
  }

  /** How the router compares a location with a route pattern: ASCII case
      is ignored and trailing slashes do not matter. */
  function NormalPath(path: string): string
  {
    LowerStr(StripTrailingSlashes(path))
  }

  /** The route table: signed out, only the login screen; signed in,
      "/patients" (in any letter case, with or without trailing slashes)
      shows the patients page, and "/" as well as every unmatched path,
      which redirects to "/", shows the dashboard. */
  function Route(signedIn: bool, path: string): (s: Screen)
    ensures !signedIn <==> s == LoginScreen
    ensures s == PatientsScreen <==> signedIn && NormalPath(path) == PatientsItem.path
  {
    if !signedIn then LoginScreen
    else if NormalPath(path) == "/patients" then PatientsScreen
    else DashboardScreen
  }

  /** Spelling variants the router accepts for the patients page. */
  lemma PatientsPathVariants()
    ensures Route(true, "/patients/") == PatientsScreen
    ensures Route(true, "/Patients") == PatientsScreen
    ensures Route(true, "/PATIENTS//") == PatientsScreen
    ensures Route(true, "/patient") == DashboardScreen
  {
    assert StripTrailingSlashes("/patients/") == "/patients" by {
      assert "/patients/"[..9] == "/patients";
    }
    assert StripTrailingSlashes("/PATIENTS//") == "/PATIENTS" by {
      assert "/PATIENTS//"[..10] == "/PATIENTS/";
      assert "/PATIENTS/"[..9] == "/PATIENTS";
    }
    assert LowerStr("/Patients") == "/patients";
    assert LowerStr("/PATIENTS") == "/patients";
  }

  /** The Prescriptions and Settings entries have no page: they land on the
      dashboard. Routes are not gated by role: a pharmacist whose menu hides
      Patients still reaches that page by its path. */
  lemma MenuTargets()
    ensures Route(true, PrescriptionsItem.path) == DashboardScreen
    ensures Route(true, SettingsItem.path) == DashboardScreen
    ensures Route(true, DashboardItem.path) == DashboardScreen
    ensures PatientsItem !in VisibleMenu(Pharmacist) && Route(true, PatientsItem.path) == PatientsScreen
  {
    PharmacistMenu();
    assert NormalPath(SettingsItem.path)[1] == 's';
  }

  /** The tenant id handed to the patients page: `tenant?.id || ''`. */
  function TenantIdProp(tenant: Option<Tenant>): (id: string)
    ensures tenant.None? ==> id == ""
    ensures tenant.Some? ==> id == tenant.value.id
  {
    if tenant.Some? then tenant.value.id else ""
  }

  /** Every patient in the list belongs to tenant `tenantId`. */
  predicate TenantScoped(patients: seq<Patient>, tenantId: string)
  {
    forall i :: 0 <= i < |patients| ==> patients[i].tenantId == tenantId
  }

  lemma InitialPatientsScoped()
    ensures TenantScoped(InitialPatients, MockTenant.id)
  {
  }

  /** The top-level state of `App`. */
  class AppState {
    var currentUser: Option<User>
    var tenant: Option<Tenant>
    var patients: seq<Patient>

    /** Signed in exactly when a tenant is set, and that tenant is the mock one. */
    ghost predicate Valid()
      reads this
    {
      (currentUser.Some? <==> tenant.Some?) && (tenant.Some? ==> tenant.value == MockTenant)
    }

    function CurrentScreen(path: string): Screen
      reads this
    {
      Route(currentUser.Some?, path)
    }

    constructor ()
      ensures Valid()
      ensures currentUser == None && tenant == None && patients == InitialPatients
    {
      currentUser := None;
      tenant := None;
      patients := InitialPatients;
    }

    /** `handleLogin`. */
    method Login(user: User)
      modifies this
      ensures Valid()
      ensures currentUser == Some(user) && tenant == Some(MockTenant)
      ensures patients == old(patients)
    {
      currentUser := Some(user);
      tenant := Some(MockTenant);
    }

    /** `handleSignIn` of the login screen (after its simulated delay): signs
        in the mock user with the selected id, if there is one. */
    method SignIn(selectedId: string)
      requires Valid()
      modifies this
      ensures Valid() && patients == old(patients)
      ensures FindById(MockUsers, selectedId).Some? ==>
        currentUser == FindById(MockUsers, selectedId) && tenant == Some(MockTenant)
      ensures FindById(MockUsers, selectedId).None? ==>
        currentUser == old(currentUser) && tenant == old(tenant)
    {
      var found := FindById(MockUsers, selectedId);
      if found.Some? {
        Login(found.value);
      }
    }

    /** `handleLogout`: afterwards every path shows the login screen. */
    method Logout()
      modifies this
      ensures Valid()
      ensures currentUser == None && tenant == None && patients == old(patients)
      ensures forall path :: CurrentScreen(path) == LoginScreen
    {
      currentUser := None;
      tenant := None;
    }

    /** `handleAddPatient`: the new patient goes first, the rest follow in order. */
    method AddPatient(p: Patient)
      modifies this
      ensures patients == [p] + old(patients)
      ensures |patients| == |old(patients)| + 1 && patients[0] == p && patients[1..] == old(patients)
      ensures currentUser == old(currentUser) && tenant == old(tenant)
    {
      patients := [p] + patients;
    }
  }

  /** `PatientManager`: shows the patient list, or the registration form
      while `isAdding`. */
  class PatientManager {
    const userRole: UserRole
    var isAdding: bool

    constructor (role: UserRole)
      ensures userRole == role && !isAdding
    {
      userRole := role;
      isAdding := false;
    }

    /** The list's "Register Patient" button, rendered only when the role may
        register (and only while the list, not the form, is shown). */
    method ClickRegister()
      modifies this
      ensures isAdding == (old(isAdding) || CanRegister(userRole))
    {
      if !isAdding && CanRegister(userRole) {
        isAdding := true;
      }
    }

    /** Submitting the form: a valid form adds exactly one patient, scoped to
        the signed-in tenant, and returns to the list; an invalid one changes
        nothing and the form stays open. */
    method Submit(app: AppState, data: FormData, now: nat, today: string) returns (created: Option<Patient>)
      requires isAdding
      requires app.Valid() && app.currentUser.Some?
      modifies this, app
      ensures app.Valid()
      ensures app.currentUser == old(app.currentUser) && app.tenant == old(app.tenant)
      ensures created == HandleSubmit(data, TenantIdProp(old(app.tenant)), now, today)
      ensures created.Some? ==>
        created.value.tenantId == MockTenant.id
        && app.patients == [created.value] + old(app.patients) && !isAdding
      ensures created.None? ==> app.patients == old(app.patients) && isAdding
      ensures old(TenantScoped(app.patients, MockTenant.id)) ==> TenantScoped(app.patients, MockTenant.id)
    {
      created := HandleSubmit(data, TenantIdProp(app.tenant), now, today);
      if created.Some? {
        app.AddPatient(created.value);
        isAdding := false;
      }
    }

    /** The form's Cancel button: back to the list, patients untouched. */
    method Cancel()
      modifies this
      ensures !isAdding
    {
      isAdding := false;
    }
  }
}
