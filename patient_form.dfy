/**
 * The patient registration form: its field-by-field state, the doctor
 * drop-down, and `handleSubmit`, which validates the form and builds the
 * new patient record. The clock is a parameter: `now` is `Date.now()` and
 * `today` the ISO date of the admission.
 */
module PatientForm {
  import opened Types
  import opened Strings
  import opened Seqs

  /** The form's `Partial<Patient>` state; every key is present from the start. */
  datatype FormData = FormData(
    firstName: string,
    lastName: string,
    dob: string,
    gender: Gender,
    contact: string,
    patientType: PatientType,
    status: PatientStatus,
    assignedDoctorId: string)

  const InitialFormData: FormData := FormData("", "", "", Male, "", Opd, Active, "")

  /** The initial form: male outpatient, active, every text field empty. */
  lemma InitialFormDefaults()
    ensures InitialFormData.gender == Male && InitialFormData.patientType == Opd
    ensures InitialFormData.status == Active
    ensures InitialFormData.firstName == InitialFormData.lastName == InitialFormData.dob == ""
    ensures InitialFormData.contact == InitialFormData.assignedDoctorId == ""
  {
  }

  /** The staff offered in the "Assign Doctor" drop-down. */
  function Doctors(staff: seq<User>): seq<User>
  {
    Filter(staff, (u: User) => u.role == Doctor)
  }

  /** The drop-down lists exactly the staff whose role is DOCTOR, in staff order. */
  lemma DoctorsSpec(staff: seq<User>, u: User)
    ensures u in Doctors(staff) <==> u in staff && u.role == Doctor
    ensures IsSubsequence(Doctors(staff), staff)
    ensures multiset(Doctors(staff))[u] == if u.role == Doctor then multiset(staff)[u] else 0
  {
    FilterCount(staff, (v: User) => v.role == Doctor, u);
    FilterMembership(staff, (v: User) => v.role == Doctor, u);
    FilterIsSubsequence(staff, (v: User) => v.role == Doctor);
  }

  /** The id of a patient registered at time `now`. */
  function PatientId(tenantId: string, now: nat): string
  {
    tenantId + "-P-" + Decimal(now)
  }

  /** The form fields of a patient record (the inverse of submission). */
  function FormOf(p: Patient): FormData
  {
    FormData(p.firstName, p.lastName, p.dob, p.gender, p.contact, p.patientType, p.status,
             if p.assignedDoctorId.Some? then p.assignedDoctorId.value else "")
  }

  /** `handleSubmit`: a record only when first name, last name and date of
      birth are non-empty (contact is not checked here). The record carries
      the form's fields, the tenant id, an id made of the tenant id, "-P-"
      and the time, and today's date as admission date. */
  function HandleSubmit(data: FormData, tenantId: string, now: nat, today: string): (r: Option<Patient>)
    ensures r.Some? <==> data.firstName != "" && data.lastName != "" && data.dob != ""
    ensures r.Some? ==> r.value.tenantId == tenantId && r.value.admissionDate == today
    ensures r.Some? ==> r.value.id == PatientId(tenantId, now) && StartsWith(r.value.id, tenantId + "-P-")
    ensures r.Some? ==> FormOf(r.value) == data && r.value.assignedDoctorId.Some?
  {
    if data.firstName != "" && data.lastName != "" && data.dob != "" then
      var id := PatientId(tenantId, now);
      assert id[..|tenantId + "-P-"|] == tenantId + "-P-";
      Some(Patient(id, tenantId, data.firstName, data.lastName, data.dob, data.gender,
                   data.contact, data.patientType, Some(data.assignedDoctorId), data.status,
                   today))
    else None
  }

  /** Contact is not validated: a form that differs only in its contact field
      is accepted or refused alike. */
  lemma ContactNotValidated(data: FormData, contact: string, tenantId: string, now: nat, today: string)
    ensures HandleSubmit(data, tenantId, now, today).Some? <==>
            HandleSubmit(data.(contact := contact), tenantId, now, today).Some?
  {
  }

  /** Two registrations of one tenant get the same id exactly when they
      happen at the same millisecond: ids are not unique by construction. */
  lemma {:induction false} PatientIdsCollideIffSameTime(tenantId: string, t1: nat, t2: nat)
    ensures PatientId(tenantId, t1) == PatientId(tenantId, t2) <==> t1 == t2
  {
    var prefix := tenantId + "-P-";
    if PatientId(tenantId, t1) == PatientId(tenantId, t2) {
      assert PatientId(tenantId, t1)[|prefix|..] == Decimal(t1);
      assert PatientId(tenantId, t2)[|prefix|..] == Decimal(t2);
      DecimalInjective(t1, t2);
    }
  }

  /** Two accepted submissions for one tenant yield records with the same
      id exactly when they happen at the same millisecond. */
  lemma SubmittedIdsCollideIffSameTime(d1: FormData, d2: FormData, tenantId: string,
                                       t1: nat, t2: nat, today: string)
    requires HandleSubmit(d1, tenantId, t1, today).Some? && HandleSubmit(d2, tenantId, t2, today).Some?
    ensures (HandleSubmit(d1, tenantId, t1, today).value.id ==
             HandleSubmit(d2, tenantId, t2, today).value.id) <==> t1 == t2
  {
    PatientIdsCollideIffSameTime(tenantId, t1, t2);
  }

  /** The form's state, updated one field at a time by its change handlers. */
  class Form {
    var formData: FormData

    constructor ()
      ensures formData == InitialFormData
    {
      formData := InitialFormData;
    }

    method SetFirstName(v: string)
      modifies this
      ensures formData == old(formData).(firstName := v)
    {
      formData := formData.(firstName := v);
    }

    method SetLastName(v: string)
      modifies this
      ensures formData == old(formData).(lastName := v)
    {
      formData := formData.(lastName := v);
    }

    method SetDob(v: string)
      modifies this
      ensures formData == old(formData).(dob := v)
    {
      formData := formData.(dob := v);
    }

    method SetGender(v: Gender)
      modifies this
      ensures formData == old(formData).(gender := v)
    {
      formData := formData.(gender := v);
    }

    method SetContact(v: string)
      modifies this
      ensures formData == old(formData).(contact := v)
    {
      formData := formData.(contact := v);
    }

    method SetPatientType(v: PatientType)
      modifies this
      ensures formData == old(formData).(patientType := v)
    {
      formData := formData.(patientType := v);
    }

    method SetAssignedDoctor(v: string)
      modifies this
      ensures formData == old(formData).(assignedDoctorId := v)
    {
      formData := formData.(assignedDoctorId := v);
    }
  }
}
