# Hospital front-end: role gate, patient registry and chat transcript

A Dafny model of the logic inside a demo hospital-management web front-end.
The app has these parts:

- a role-gated navigation menu and a separate allow-list for registering patients;
- a top-level state holding the signed-in user, the tenant (the hospital) and the in-memory patient list;
- a patient table with search, type filter and doctor-name column;
- a registration form that validates its input and builds the new patient record;
- a dashboard of counters;
- a floating chat widget that streams a reply from a text-generation service into its transcript.

Files, one module each:

| file | module | models |
|---|---|---|
| `types.dfy` | `Types` | the records and enumerations, `find` by user id, the seeded mock data |
| `strings.dfy` | `Strings` | ASCII `toLowerCase`, `includes`, ECMAScript `trim`, `Number.toString` for naturals |
| `seqs.dfy` | `Seqs` | `Array.filter` and the order-preserving subsequence relation |
| `app.dfy` | `App` | `App.tsx`: menu table, `canAccess`, `canRegister`, routes, `App` state, `PatientManager` |
| `patient_list.dfy` | `PatientList` | `PatientList.tsx`: `filteredPatients`, `getDoctorName`, the empty-result row |
| `patient_form.dfy` | `PatientForm` | `PatientForm.tsx`: form defaults and field handlers, `doctors`, `handleSubmit` |
| `assistant.dfy` | `Assistant` | `AIAssistant.tsx`: transcript, send guard, streamed reply, failure, speech flag |
| `dashboard.dfy` | `Dashboard` | `Dashboard.tsx`: counters, pie data, OPD-visits card, hospital name |

State that the source updates in place is modelled as classes:

- `AppState` holds `currentUser`, `tenant` and `patients`.
- `PatientManager` holds `isAdding`.
- `Form` holds `formData`.
- `ChatWidget` holds `messages`, `input`, `isLoading`, `isListening`, `isOpen` and the session handle.

Pure expressions are modelled as functions, and their properties are proved as lemmas.
`handleSend` is split at its `await` into two methods:

- `BeginSend` does the guard, appends the user turn, clears the input and raises the loading flag.
- `FinishSend` appends the placeholder, runs the chunk loop, appends the apology on failure and clears the loading flag.

`HandleSend` runs the two back to back. Between them, a second send is refused by the loading guard.

The following are parameters:

- The clock: `now`, `modelTime` and `errorTime` become ids through `Decimal`. `today` is the admission date.
- The service's answer: a `Reply` is either `Rejected` (the request throws), or `Streamed(chunks, broke)`. `Streamed` means a finite list of chunks, each with or without text, after which the stream either ends or throws.
- Browser speech support: the `supported` flag.

The code, and so the model, behaves as follows in four places where a reader might expect otherwise:

- Reopening the widget only sets the conversation handle again. The transcript is kept (`ChatWidget.Toggle`).
- No check guards against late fragments from an older session. The chunk loop applies every fragment.
- Message and patient ids are clock readings and are not unique by construction (`PatientIdsCollideIffSameTime`).
- Routes are not gated by role. A pharmacist's menu hides Patients, but the `/patients` path still shows that page (`MenuTargets`). The registration action keeps its own allow-list.

## Model

| member | source | states |
|---|---|---|
| `App.VisibleMenuSpec` | App.tsx:153-160 | an item is in the menu iff it is in the table and its role list contains the user's role; the menu keeps table order (the desktop sidebar, line 177, and the mobile overlay, line 234, both render this one list) |
| `App.DashboardAlwaysFirst` | App.tsx:154 | every role sees at least one item, and the first item is Dashboard (its role list is every `UserRole`) |
| `App.DoctorMenu` | App.tsx:154-156 | a doctor sees exactly Dashboard, Patients, Prescriptions |
| `App.NurseMenu` | App.tsx:154-157 | a nurse sees exactly [Dashboard, Patients] |
| `App.PharmacistMenu` | App.tsx:154-157 | a pharmacist sees exactly [Dashboard, Prescriptions] |
| `App.SettingsOnlyForAdmins` | App.tsx:157 | Settings is in the menu iff the role is HOSPITAL_ADMIN or SUPER_ADMIN |
| `App.RegistrantsSeePatients` | App.tsx:327 | every role allowed to register patients also has the Patients menu entry |
| `App.PatientsPageDoesNotGrantRegistration` | App.tsx:327 | DOCTOR and NURSE see Patients but may not register; PHARMACIST may do neither |
| `App.Route` | App.tsx:287-305 | signed out, the only screen is the login screen; signed in, the patients page is shown iff the path, with trailing slashes removed and ASCII letters lower-cased, is `/patients` (the router's default case-insensitive, trailing-slash-tolerant matching); every other path shows the dashboard |
| `App.StripTrailingSlashes` | App.tsx:295-305 | the result is a prefix of the path that does not end in `/`, and everything cut off is `/` |
| `App.PatientsPathVariants` | App.tsx:296-304 | `/patients/`, `/Patients` and `/PATIENTS//` show the patients page; `/patient` does not |
| `App.MenuTargets` | App.tsx:294-305 | the Prescriptions and Settings entries fall back to the dashboard; `/patients` is reachable even when the menu hides it |
| `App.TenantIdProp` | App.tsx:301 | the patients page gets `tenant.id`, or `""` without a tenant |
| `App.InitialPatientsScoped` | constants.ts:53-93 | every seeded patient belongs to the mock tenant |
| `App.AppState.constructor` | App.tsx:267-269 | the app starts signed out, with no tenant and the seeded patients |
| `App.AppState.Login` | App.tsx:272-275 | login sets the user and the mock tenant; patients unchanged |
| `App.AppState.SignIn` | App.tsx:15-23 | the login screen signs in the mock user with the selected id if one exists, and otherwise changes nothing |
| `App.AppState.Logout` | App.tsx:277-280 | logout clears user and tenant, keeps patients; afterwards every path shows the login screen (lines 287-289) |
| `App.AppState.AddPatient` | App.tsx:282-284 | the list becomes `[p] + old`: one longer, `p` first, the old patients after it unchanged and in order |
| `App.PatientManager.constructor` | App.tsx:326 | the patients page opens on the list, not the form |
| `App.PatientManager.ClickRegister` | App.tsx:347-348 | the form opens only for roles that may register (the button is rendered only then, PatientList.tsx line 60) |
| `App.PatientManager.Submit` | App.tsx:331-337 | a valid form adds exactly the record `handleSubmit` builds, scoped to the signed-in tenant, and returns to the list; an invalid form changes nothing and stays open; tenant scoping of the list is preserved |
| `App.PatientManager.Cancel` | App.tsx:338 | cancel returns to the list without touching the patients |
| `PatientList.FilteredPatientsSpec` | components/PatientList.tsx:15-24 | a patient is listed iff it is in the list, the lower-cased term occurs in its lower-cased first name, last name or id, and the filter is ALL or its type; the listing is an order-preserving subsequence and lists each shown patient as many times as the input holds it |
| `PatientList.EmptySearchShowsAll` | components/PatientList.tsx:12-24 | the initial view (empty term, ALL) lists every patient in order |
| `PatientList.OnlyTypeFilterSound` | components/PatientList.tsx:21 | with filter OPD or IPD every listed patient has that type |
| `PatientList.SearchIgnoresTermCase` | components/PatientList.tsx:17-19 | the listing is the same for a term and its lower-cased form |
| `PatientList.NoPatientsRowIffNoneShown` | components/PatientList.tsx:87-118 | the "No patients found" row appears iff no patient passes search and filter |
| `PatientList.GetDoctorName` | components/PatientList.tsx:26-30 | `-` iff the doctor id is absent or empty; otherwise "Dr. " + last name of the first staff member with that id, and `Unknown` iff none has it |
| `PatientForm.InitialFormDefaults` | components/PatientForm.tsx:12-21 | the form starts as Male, OPD, Active, with every text field empty |
| `PatientForm.DoctorsSpec` | components/PatientForm.tsx:23 | the doctor drop-down lists exactly the DOCTOR staff, in staff order, each as many times as the staff list holds it |
| `PatientForm.HandleSubmit` | components/PatientForm.tsx:25-36 | a record is produced iff first name, last name and date of birth are non-empty; it carries the form's fields unchanged (its form part equals the form data), the `tenantId` prop, the id `PatientId(tenantId, now)`, i.e. `tenantId + "-P-"` followed by the decimal clock reading, and today's date |
| `PatientForm.ContactNotValidated` | components/PatientForm.tsx:27 | the contact field has no effect on whether a record is produced |
| `PatientForm.PatientIdsCollideIffSameTime` | components/PatientForm.tsx:30 | two ids of one tenant are equal iff they were made at the same millisecond |
| `PatientForm.SubmittedIdsCollideIffSameTime` | components/PatientForm.tsx:25-36 | two accepted submissions for one tenant produce records with equal ids iff they happen at the same millisecond |
| `PatientForm.Form.constructor` | components/PatientForm.tsx:12-21 | the form state starts at the defaults |
| `PatientForm.Form.SetFirstName` | components/PatientForm.tsx:50 | changes the first name only |
| `PatientForm.Form.SetLastName` | components/PatientForm.tsx:60 | changes the last name only |
| `PatientForm.Form.SetDob` | components/PatientForm.tsx:73 | changes the date of birth only |
| `PatientForm.Form.SetGender` | components/PatientForm.tsx:81 | changes the gender only |
| `PatientForm.Form.SetContact` | components/PatientForm.tsx:98 | changes the contact only |
| `PatientForm.Form.SetPatientType` | components/PatientForm.tsx:106 | changes the patient type only |
| `PatientForm.Form.SetAssignedDoctor` | components/PatientForm.tsx:119 | changes the assigned doctor only |
| `Assistant.GreetingNamesUser` | components/AIAssistant.tsx:18-20 | the initial model message has id `init` and its text contains the user's first name |
| `Assistant.ReplaceText` | components/AIAssistant.tsx:64-66 | replacing by id keeps the length, changes only the text of messages with that id, and leaves every other message as it was |
| `Assistant.ReplaceTextTwice` | components/AIAssistant.tsx:64-66 | a later replacement by the same id overrides an earlier one |
| `Assistant.NoTextMeansEmpty` | components/AIAssistant.tsx:60-67 | the response stays empty iff no chunk carries text |
| `Assistant.ConcatPrefix` | components/AIAssistant.tsx:54-67 | every intermediate `fullResponse` is a prefix of the final one |
| `Assistant.StreamStep` | components/AIAssistant.tsx:60-67 | one loop turn appends the chunk's text; a chunk with text replaces the placeholder's text, a chunk without text changes nothing |
| `Assistant.AfterChunksShape` | components/AIAssistant.tsx:55-67 | streaming adds exactly one message, the placeholder, which ends up holding all chunk texts in order; earlier messages keep their place and only those sharing its id get the new text |
| `Assistant.AfterReplyShape` | components/AIAssistant.tsx:47-73 | a refused request appends exactly one apology; a broken stream appends it after the partial placeholder; a completed one appends only the placeholder; earlier ids and senders never change |
| `Assistant.UserTurnSurvives` | components/AIAssistant.tsx:42-66 | if the clock does not run backwards, the placeholder's id differs from the user turn's, so the user's message is never overwritten |
| `Assistant.ChatWidget.constructor` | components/AIAssistant.tsx:17-25 | the widget starts closed, idle, not listening, with an empty input and the greeting as its only message |
| `Assistant.ChatWidget.Toggle` | components/AIAssistant.tsx:28-33 | opening (line 217) sets the handle to one made for the user; the transcript and input are kept |
| `Assistant.ChatWidget.Close` | components/AIAssistant.tsx:133 | closing changes nothing else |
| `Assistant.ChatWidget.TypeInput` | components/AIAssistant.tsx:182-189 | typing sets the input except while loading (the box is disabled) |
| `Assistant.ChatWidget.BeginSend` | components/AIAssistant.tsx:39-52 | a send starts iff the input is not all white space and nothing is loading; then the untrimmed user turn is appended, the input cleared, loading set and a handle ensured; otherwise nothing changes |
| `Assistant.ChatWidget.FinishSend` | components/AIAssistant.tsx:52-73 | the transcript becomes `AfterReply` of the old one (placeholder, chunk loop, apology on failure); loading is false afterwards; the greeting stays first |
| `Assistant.ChatWidget.HandleSend` | components/AIAssistant.tsx:39-74 | a whole send: either nothing changes, or the user turn and the reply are appended, the input is empty, loading is false and a conversation handle exists (the old one, or one made for the user if there was none) |
| `Assistant.ChatWidget.KeyDown` | components/AIAssistant.tsx:76-81 | Enter without Shift sends, with the same outcome as `HandleSend`, handle included; any other key changes nothing |
| `Assistant.ChatWidget.StartListening` | components/AIAssistant.tsx:83-96 | listening starts iff speech recognition is supported |
| `Assistant.ChatWidget.OnSpeechResult` | components/AIAssistant.tsx:98-102 | the utterance becomes the input and listening stops |
| `Assistant.ChatWidget.OnSpeechStop` | components/AIAssistant.tsx:104-111 | an error or the end of recognition stops listening |
| `Dashboard.TypeCountsPartition` | components/Dashboard.tsx:11-13 | `ipdPatients + opdPatients == totalPatients` |
| `Dashboard.ActiveAtMostTotal` | components/Dashboard.tsx:14 | `activePatients <= totalPatients`, and the difference is the discharged count |
| `Dashboard.CountsAfterRegistration` | components/Dashboard.tsx:11-14 | prepending one patient adds one to the total and one to exactly the counts of its type and status |
| `Dashboard.PieDataCoversAll` | components/Dashboard.tsx:27-30 | two slices, IPD then OPD, whose values sum to the total |
| `Dashboard.OpdVisitsCountsOutpatients` | components/Dashboard.tsx:88 | the card shows the non-inpatient count plus 12 |
| `Dashboard.HospitalNameOfMockTenant` | components/Dashboard.tsx:60 | the greeting names "City General Hospital" iff the user's tenant is `tenant-123`, otherwise "your hospital" |
| `Strings.IncludesIffOccurs` | components/PatientList.tsx:17-19 | `includes` holds iff the needle occurs at some index |
| `Strings.TrimEmptyIffBlank` | components/AIAssistant.tsx:40 | `trim()` gives `""` iff every character is ECMAScript white space |
| `Strings.DecimalInjective` | components/AIAssistant.tsx:55 | distinct clock readings render as distinct ids |
| `Types.FirstIndexOf` | components/PatientList.tsx:28 | `find` by id returns the first match, and nothing only when no user has that id |
| `Types.FindById` | App.tsx:20 | the user found by id is the first in the list with that id; one is found iff some user has it |

## Left out

- App.Route: the router's percent-decoding of paths and its full Unicode case-insensitivity are not modelled; only ASCII letters are folded and trailing slashes dropped.
- JSX rendering, styling, icons, the recharts charts and their mock series, and scroll-into-view are presentation only.
- The chat session's prompt text (services/geminiService.ts) is left out. The handle is an opaque value built from the user.
- The async machinery and React state batching are left out. `handleSend` is the sequential pair `BeginSend`/`FinishSend`, and no other event is modelled between chunks.
- A change of the widget's `user` prop while it is open, which also recreates the handle, is left out. The widget's user is fixed at construction.
- The 800 ms login delay (`setTimeout`) is left out. `SignIn` is its continuation.
- `Date.now()`, the ISO admission date and the age column (`new Date()`) are left out; they become parameters or are not shown.
- `alert` and the Web Speech API are left out. Only the boolean listening flag is kept.
- `toLowerCase` folds ASCII letters only, not full Unicode case mapping.
- The browser's own `required` checks on form fields are not modelled. Only `handleSubmit`'s check is.
- The mobile-menu open/closed flag is presentation state and is not modelled.
