/**
 * The records and enumerations of the hospital front-end, the `find` by id
 * it uses on user lists, and the seeded mock data.
 */
module Types {

  datatype Option<T> = None | Some(value: T)

  datatype UserRole =
    | SuperAdmin
    | HospitalAdmin
    | Doctor
    | Nurse
    | Pharmacist
    | Receptionist

  /** `Object.values(UserRole)`, in declaration order. */
  const AllRoles: seq<UserRole> :=
    [SuperAdmin, HospitalAdmin, Doctor, Nurse, Pharmacist, Receptionist]

  lemma AllRolesComplete(r: UserRole)
    ensures r in AllRoles
  {
  }

  /** Outpatient (OPD) or inpatient (IPD). */
  datatype PatientType = Opd | Ipd

  datatype Gender = Male | Female | Other

  datatype PatientStatus = Active | Discharged

  datatype User = User(
    id: string,
    firstName: string,
    lastName: string,
    email: string,
    role: UserRole,
    tenantId: string)

  datatype Patient = Patient(
    id: string,
    tenantId: string,
    firstName: string,
    lastName: string,
    dob: string,
    gender: Gender,
    contact: string,
    patientType: PatientType,
    assignedDoctorId: Option<string>,
    status: PatientStatus,
    admissionDate: string)

  datatype TenantStatus = Pending | ActiveTenant

  datatype Tenant = Tenant(
    id: string,
    name: string,
    domain: string,
    licenseNumber: string,
    status: TenantStatus)

  /** Index of the first user whose id is `id`, if there is one. */
  function FirstIndexOf(users: seq<User>, id: string): (r: Option<nat>)
    ensures r.Some? ==> r.value < |users| && users[r.value].id == id
    ensures r.Some? ==> forall j :: 0 <= j < r.value ==> users[j].id != id
    ensures r.None? ==> forall j :: 0 <= j < |users| ==> users[j].id != id
  {
    if users == [] then None
    else if users[0].id == id then Some(0)
    else match FirstIndexOf(users[1..], id)
      case None => None
      case Some(k) => Some(k + 1)
  }

  /** `users.find(u => u.id === id)`. */
  function FindById(users: seq<User>, id: string): (r: Option<User>)
    ensures r.Some? <==> exists j :: 0 <= j < |users| && users[j].id == id
    ensures r.Some? ==> r.value in users && r.value.id == id
    ensures r.Some? ==> exists i :: 0 <= i < |users| && users[i] == r.value
                                    && forall j :: 0 <= j < i ==> users[j].id != id
  {
    match FirstIndexOf(users, id)
    case None => None
    case Some(i) => Some(users[i])
  }

  const MockTenant: Tenant :=
    Tenant("tenant-123", "City General Hospital", "citygeneral", "LIC-998877", ActiveTenant)

  const MockUsers: seq<User> := [
    User("u1", "Alice", "Admin", "admin@citygeneral.com", HospitalAdmin, "tenant-123"),
    User("u2", "Gregory", "House", "house@citygeneral.com", Doctor, "tenant-123"),
    User("u3", "Florence", "Nightingale", "nurse@citygeneral.com", Nurse, "tenant-123"),
    User("u4", "Pam", "Beesly", "pam@citygeneral.com", Receptionist, "tenant-123")
  ]

  const InitialPatients: seq<Patient> := [
    Patient("t123-P-001", "tenant-123", "John", "Doe", "1985-05-15", Male, "555-0101",
            Ipd, Some("u2"), Active, "2023-10-25"),
    Patient("t123-P-002", "tenant-123", "Jane", "Smith", "1992-08-22", Female, "555-0102",
            Opd, Some("u2"), Active, "2023-10-26"),
    Patient("t123-P-003", "tenant-123", "Robert", "Brown", "1978-11-30", Male, "555-0103",
            Opd, Some("u2"), Discharged, "2023-10-20")
  ]
}
