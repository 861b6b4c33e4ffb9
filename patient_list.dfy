/**
 * The patient registry table: the search-and-type filter over the patient
 * list, the assigned-doctor column and the "no patients" row.
 */
module PatientList {
  import opened Types
  import opened Strings
  import opened Seqs

  /** The type drop-down: every patient, or one `PatientType` only. */
  datatype TypeFilter = All | OnlyType(t: PatientType)

  /** Case-insensitive `includes` of the search term in one field. */
  function FieldMatches(field: string, term: string): bool
  {
    Includes(LowerStr(field), LowerStr(term))
  }

  function MatchesSearch(p: Patient, term: string): bool
  {
    FieldMatches(p.firstName, term) || FieldMatches(p.lastName, term) || FieldMatches(p.id, term)
  }

  function MatchesType(p: Patient, filter: TypeFilter): bool
  {
    filter.All? || p.patientType == filter.t
  }

  function IsShown(p: Patient, term: string, filter: TypeFilter): bool
  {
    MatchesSearch(p, term) && MatchesType(p, filter)
  }

  /** `filteredPatients`: the rows of the table, in list order. */
  function FilteredPatients(patients: seq<Patient>, term: string, filter: TypeFilter): seq<Patient>
  {
    Filter(patients, p => IsShown(p, term, filter))
  }

  /** Declarative reading of a search hit: the lower-cased term occurs
      somewhere in the lower-cased field. */
  ghost predicate Occurs(field: string, term: string)
  {
    exists i :: OccursAt(LowerStr(field), LowerStr(term), i)
  }

  /** A patient is listed exactly when it is in the list (as often as it occurs there), the term occurs in
      its first name, last name or id (ignoring ASCII case), and the filter
      is "all" or names its type. The listing keeps the list's order. */
  lemma FilteredPatientsSpec(patients: seq<Patient>, term: string, filter: TypeFilter, p: Patient)
    ensures p in FilteredPatients(patients, term, filter) <==>
      p in patients
      && (Occurs(p.firstName, term) || Occurs(p.lastName, term) || Occurs(p.id, term))
      && (filter == All || filter == OnlyType(p.patientType))
    ensures IsSubsequence(FilteredPatients(patients, term, filter), patients)
    ensures multiset(FilteredPatients(patients, term, filter))[p] ==
      if (Occurs(p.firstName, term) || Occurs(p.lastName, term) || Occurs(p.id, term))
         && (filter == All || filter == OnlyType(p.patientType))
      then multiset(patients)[p] else 0
  {
    FilterMembership(patients, q => IsShown(q, term, filter), p);
    FilterCount(patients, q => IsShown(q, term, filter), p);
    IncludesIffOccurs(LowerStr(p.firstName), LowerStr(term));
    IncludesIffOccurs(LowerStr(p.lastName), LowerStr(term));
    IncludesIffOccurs(LowerStr(p.id), LowerStr(term));
    FilterIsSubsequence(patients, q => IsShown(q, term, filter));
  }

  /** The initial view (empty search, all types) lists every patient. */
  lemma EmptySearchShowsAll(patients: seq<Patient>)
    ensures FilteredPatients(patients, "", All) == patients
  {
    forall i | 0 <= i < |patients|
      ensures IsShown(patients[i], "", All)
    {
      IncludesEmpty(LowerStr(patients[i].firstName));
    }
    FilterAll(patients, p => IsShown(p, "", All));
  }

  /** With the OPD or IPD filter every listed patient has that type. */
  lemma OnlyTypeFilterSound(patients: seq<Patient>, term: string, t: PatientType)
    ensures forall i :: 0 <= i < |FilteredPatients(patients, term, OnlyType(t))| ==>
      FilteredPatients(patients, term, OnlyType(t))[i].patientType == t
  {
  }

  /** The search ignores the case of the term. */
  lemma SearchIgnoresTermCase(patients: seq<Patient>, term: string, filter: TypeFilter)
    ensures FilteredPatients(patients, term, filter) == FilteredPatients(patients, LowerStr(term), filter)
  {
    LowerStrIdempotent(term);
    FilterCongruent(patients, p => IsShown(p, term, filter), p => IsShown(p, LowerStr(term), filter));
  }

  /** The "No patients found matching criteria." row replaces the rows. */
  predicate ShowsNoPatientsRow(patients: seq<Patient>, term: string, filter: TypeFilter)
  {
    |FilteredPatients(patients, term, filter)| == 0
  }

  /** That row appears exactly when no patient passes search and filter. */
  lemma NoPatientsRowIffNoneShown(patients: seq<Patient>, term: string, filter: TypeFilter)
    ensures ShowsNoPatientsRow(patients, term, filter) <==>
      forall i :: 0 <= i < |patients| ==> !IsShown(patients[i], term, filter)
  {
    FilterEmptyIffNonePass(patients, p => IsShown(p, term, filter));
  }

  /** `getDoctorName`: "-" when no doctor is assigned (absent or empty id),
      "Dr. " and the last name of the first staff member with that id, and
      "Unknown" when no staff member has it. */
  function GetDoctorName(doctorId: Option<string>, staff: seq<User>): (r: string)
    ensures r == "-" <==> doctorId.None? || doctorId.value == ""
    ensures doctorId.Some? && doctorId.value != "" ==>
      forall j :: 0 <= j < |staff| && staff[j].id == doctorId.value
        && (forall k :: 0 <= k < j ==> staff[k].id != doctorId.value)
        ==> r == "Dr. " + staff[j].lastName
    ensures doctorId.Some? && doctorId.value != "" ==>
      (r == "Unknown" <==> forall j :: 0 <= j < |staff| ==> staff[j].id != doctorId.value)
  {
    if doctorId.None? || doctorId.value == "" then "-"
    else match FirstIndexOf(staff, doctorId.value)
      case Some(i) =>
        var name := "Dr. " + staff[i].lastName;
        assert name[0] == 'D';
        name
      case None => "Unknown"
  }
}
