/**
 * The dashboard's figures: patient counts by type and status, the
 * two-slice type distribution, the outpatient-visits card and the greeting's
 * hospital name.
 */
module Dashboard {
  import opened Types
  import opened Seqs

  function TypeTest(t: PatientType): Patient -> bool
  {
    (p: Patient) => p.patientType == t
  }

  function StatusTest(s: PatientStatus): Patient -> bool
  {
    (p: Patient) => p.status == s
  }

  /** `totalPatients`. */
  function TotalPatients(patients: seq<Patient>): nat
  {
    |patients|
  }

  /** `ipdPatients`. */
  function IpdPatients(patients: seq<Patient>): nat
  {
    |Filter(patients, TypeTest(Ipd))|
  }

  /** `opdPatients`. */
  function OpdPatients(patients: seq<Patient>): nat
  {
    |Filter(patients, TypeTest(Opd))|
  }

  /** `activePatients`. */
  function ActivePatients(patients: seq<Patient>): nat
  {
    |Filter(patients, StatusTest(Active))|
  }

  /** Every patient is either inpatient or outpatient, so the two counts add
      up to the total. */
  lemma {:induction false} TypeCountsPartition(patients: seq<Patient>)
    ensures IpdPatients(patients) + OpdPatients(patients) == TotalPatients(patients)
  {
    if patients != [] {
      TypeCountsPartition(patients[1..]);
    }
  }

  /** Active cases never exceed the total; the remainder are discharged. */
  lemma {:induction false} ActiveAtMostTotal(patients: seq<Patient>)
    ensures ActivePatients(patients) <= TotalPatients(patients)
    ensures TotalPatients(patients) - ActivePatients(patients) ==
            |Filter(patients, StatusTest(Discharged))|
  {
    if patients != [] {
      ActiveAtMostTotal(patients[1..]);
    }
  }

  /** Registering one patient raises the total by one and exactly the count
      of that patient's type and status. */
  lemma CountsAfterRegistration(p: Patient, patients: seq<Patient>)
    ensures TotalPatients([p] + patients) == TotalPatients(patients) + 1
    ensures IpdPatients([p] + patients) == IpdPatients(patients) + (if p.patientType == Ipd then 1 else 0)
    ensures OpdPatients([p] + patients) == OpdPatients(patients) + (if p.patientType == Opd then 1 else 0)
    ensures ActivePatients([p] + patients) == ActivePatients(patients) + (if p.status == Active then 1 else 0)
  {
    assert ([p] + patients)[1..] == patients;
  }

  datatype PieSlice = PieSlice(name: string, value: nat)

  /** `pieData`: inpatients first, then outpatients. */
  function PieData(patients: seq<Patient>): seq<PieSlice>
  {
    [PieSlice("IPD (Inpatient)", IpdPatients(patients)),
     PieSlice("OPD (Outpatient)", OpdPatients(patients))]
  }

  /** The two slices cover every patient exactly once. */
  lemma PieDataCoversAll(patients: seq<Patient>)
    ensures |PieData(patients)| == 2
    ensures PieData(patients)[0].value + PieData(patients)[1].value == TotalPatients(patients)
  {
    TypeCountsPartition(patients);
  }

  /** The "OPD Visits (Today)" card: the outpatient count plus a fixed 12. */
  function OpdVisitsToday(patients: seq<Patient>): nat
  {
    OpdPatients(patients) + 12
  }

  /** The card shows twelve more than the patients who are not inpatients. */
  lemma OpdVisitsCountsOutpatients(patients: seq<Patient>)
    ensures OpdVisitsToday(patients) == TotalPatients(patients) - IpdPatients(patients) + 12
  {
    TypeCountsPartition(patients);
  }

  /** The hospital named in the dashboard greeting. */
  function HospitalName(user: User): string
  {
    if user.tenantId == "tenant-123" then "City General Hospital" else "your hospital"
  }

  /** The greeting names the mock tenant's hospital exactly for its users. */
  lemma HospitalNameOfMockTenant(user: User)
    ensures HospitalName(user) == MockTenant.name <==> user.tenantId == MockTenant.id
    ensures user.tenantId != MockTenant.id ==> HospitalName(user) == "your hospital"
  {
  }
}
