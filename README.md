# Clinic triage queue — a Dafny model

This project models the core of Q-Triage, a walk-in clinic web app written in
TypeScript/React. Patients book an appointment and staff enter walk-ins. Each
booking is triaged by an external AI model, with a fixed fallback when that
call fails. The resulting records sit in one in-memory store. The store hands
out a priority-ordered snapshot, and the dashboards derive the queue figures
from it.

Modules, one per source file:

- `ClinicTypes` (`types.dfy`) — the enums and records of `types.ts`. `TriageLevel` has the four enum members plus `Unlisted(name)`. The service casts the model's level string to the enum without checking it, so a record can hold a string that is none of the four.
- `ArrayLookup` (`lookup.dfy`) — JavaScript's `findIndex` and `find`, which every lookup uses.
- `QueueOrder` (`queue_order.dfy`) — the order of `getSortedAppointments`. The comparator is `b.triageScore - a.triageScore`, and `Array.prototype.sort` is stable (ECMA-262, section 23.1.3.30). So the order is score descending, with equal scores in insertion order. `SortByScore` is an insertion sort. `StableSortIsUnique` proves that every stable descending sort yields the same sequence, so the choice of algorithm does not matter.
- `ClinicStore` (`store.dfy`) — class `Store`, with its users, appointments, current user and mutation toggles.
- `TriageService` (`triage_service.dfy`) — `analyzeTriage` once the external call has answered. The answer is an oracle value `Failure | Parsed(level?, score?, justification?)`.
- `QueueMetrics` (`queue_metrics.dfy`) — the doctor dashboard's level counts, overcrowding flags and chart series.
- `PatientDashboardPage`, `StaffDashboardPage`, `Login`, `AppShell` — the page components as classes. Their fields are the React state variables, and their methods are the event handlers.

The pages keep `appointments` in React state, initialised from `getAppointments()`. That call returns the store's own array, so the list a page holds is the store's list. Each page's `Valid()` records this.

Facts about the code that shape the model:

- The code orders by `triageScore` only. Neither the triage level nor `registeredAt` takes part. `QueueOrder.ScoreOnlyExample` shows a NORMAL/90 record placed ahead of a CRITICAL/80 one.
- Appointments are only ever appended. No operation removes one.
- No handler checks the symptoms text for length or content.
- Submissions are not debounced.
- The staff-shortage and volume-doubling toggles have no effect. `MutationState` is stored but never read.
- A malformed AI answer takes the same fallback branch as a failed call.

## Model

| member | source | states |
|---|---|---|
| ClinicTypes.LevelFromName | services/geminiService.ts:42 | `s as TriageLevel`: the result's string value is `s`; it is an unlisted level exactly when `s` is none of the four enum values |
| ClinicTypes.LevelNameRoundTrip | types.ts:8-13 | a well-formed level survives conversion to its string and back |
| ClinicTypes.Rank | types.ts:8-13 | each enum member has its own position: NORMAL 1, INTERMEDIATE 2, CRITICAL 3, EMERGENCY 4 |
| ClinicTypes.StampKeepsDraft | store.ts:39-43 | `{...app, id, registeredAt}` keeps every draft field and sets exactly id and registeredAt |
| ArrayLookup.FindIndex | pages/PatientDashboard.tsx:58 | `findIndex`: -1 exactly when nothing matches, otherwise a matching index with no match before it |
| ArrayLookup.Find | store.ts:30 | `find`: the first matching element, or none exactly when nothing matches |
| QueueOrder.SortByScore | store.ts:54 | the sorted copy has as many records as the store |
| QueueOrder.SortPermutes | store.ts:54 | the sorted snapshot is a permutation of the appointments |
| QueueOrder.SortIsDescending | store.ts:54 | no record in the snapshot is followed by one with a higher triageScore |
| QueueOrder.SortIsStable | store.ts:54 | for every score, the records with that score appear in insertion order |
| QueueOrder.StableSortIsUnique | store.ts:54 | two score-descending arrangements that agree score by score on record order are equal |
| QueueOrder.AnyStableSortAgrees | store.ts:54 | any stable descending sort of the appointments equals `SortByScore` |
| QueueOrder.ScoreOnlyExample | store.ts:54 | levels play no part: NORMAL/50, CRITICAL/80, NORMAL/90 sort to NORMAL/90, CRITICAL/80, NORMAL/50 |
| QueueOrder.EqualScoresKeepArrival | store.ts:54 | two records with equal scores keep their arrival order |
| ClinicStore.UserByEmail | store.ts:30 | the first user whose email matches, or none exactly when no user has that email |
| ClinicStore.MergeEmptyAndIdempotent | store.ts:60-62 | an empty partial changes nothing; applying a partial twice equals applying it once |
| ClinicStore.MergeMutation | store.ts:61 | `{ ...this.mutation, ...m }`: a supplied field takes the supplied value; an omitted field keeps its old value |
| ClinicStore.MergeTouchesOnlySupplied | store.ts:60-62 | an omitted field keeps its old value; a supplied field takes the supplied value, whatever the old state |
| ClinicStore.Store.constructor | store.ts:5-15 | lists come from the loaded snapshot, whose levels are in canonical form (an unlisted name is never one of the four member strings); no current user; both toggles false |
| ClinicStore.Store.RegisterUser | store.ts:22-27 | appends one user with the drawn id, role PATIENT and the supplied username, name, email and password |
| ClinicStore.Store.Login | store.ts:29-36 | returns the first user with the email, ignoring the password, and makes it current; no match returns none and leaves the current user unchanged |
| ClinicStore.Store.AddAppointment | store.ts:38-47 | for a draft whose level is in canonical form (an unlisted name is never one of the four member strings): the list becomes the old list plus one record; that record is the one returned and carries every input field plus the drawn id and timestamp |
| ClinicStore.Store.GetAppointments | store.ts:49-51 | returns the stored list |
| ClinicStore.Store.GetSortedAppointments | store.ts:53-55 | a permutation of the stored list, score non-increasing, stable; the stored list is not modified |
| ClinicStore.Store.GetCurrentUser | store.ts:57 | returns the session's user |
| ClinicStore.Store.Logout | store.ts:58 | the current user becomes null |
| ClinicStore.Store.SetMutation | store.ts:60-62 | the toggles become the old toggles merged with the supplied fields |
| ClinicStore.Store.GetMutation | store.ts:63 | returns the toggles |
| TriageService.Fallback | services/geminiService.ts:46-51 | urgency > 8 gives (CRITICAL, 90); 5 < urgency ≤ 8 gives (INTERMEDIATE, 60); otherwise (NORMAL, 30) |
| TriageService.AnalyzeTriage | services/geminiService.ts:40-51 | a failure (thrown call or bad JSON) takes the fallback; for a parsed answer, a present non-empty level, a non-zero score and a non-empty justification pass through, and the rest become NORMAL, 50 and "Standard assessment" |
| TriageService.FallbackLevels | services/geminiService.ts:49-51 | the fallback never yields EMERGENCY; its score is 30 × the level's rank |
| TriageService.FallbackMonotone | services/geminiService.ts:49-51 | higher urgency never gives a lower fallback level or score |
| TriageService.FailureDependsOnBandOnly | services/geminiService.ts:46-51 | on failure, two urgencies in the same band give the same result |
| TriageService.ParsedPassesThrough | services/geminiService.ts:41-45 | a complete parsed answer comes back unchanged, whatever the urgency |
| TriageService.EmptyAnswerDefaults | services/geminiService.ts:40-45 | an empty response text (`'{}'`) yields (NORMAL, 50, "Standard assessment") |
| TriageService.ResultLevelWellFormed | services/geminiService.ts:42 | every level the service returns is well formed |
| QueueMetrics.CountLevel | pages/DoctorDashboard.tsx:49-52 | `filter(...).length`: at most the total, and zero exactly when no record has that level |
| QueueMetrics.CountUnlisted | pages/DoctorDashboard.tsx:49-52 | counts the records no enum filter matches; at most the total |
| QueueMetrics.CountIsMultiplicity | pages/DoctorDashboard.tsx:49-52 | the count of a level equals its multiplicity in the multiset of record levels |
| QueueMetrics.CountAfterAppend | pages/DoctorDashboard.tsx:49-52 | appending a record raises its own level's count by one and leaves the other counts unchanged |
| QueueMetrics.CountsPartition | pages/DoctorDashboard.tsx:49-52 | the four counts plus the unlisted records equal the total |
| QueueMetrics.CountsSumToTotal | pages/DoctorDashboard.tsx:49-52 | when every level is an enum member, the four counts sum to the total |
| QueueMetrics.NoUnlisted | pages/DoctorDashboard.tsx:49-52 | when every level is an enum member, no record is unlisted |
| QueueMetrics.ComputeMetrics | pages/DoctorDashboard.tsx:47-60 | the counts per level; volume overloaded iff total ≥ 10; strained iff EMERGENCY + CRITICAL ≥ 5; overcrowded iff either |
| QueueMetrics.OvercrowdingCases | pages/DoctorDashboard.tsx:55-57 | 10 or more records are always overcrowded; below 10, overcrowded iff EMERGENCY + CRITICAL ≥ 5 |
| QueueMetrics.SmallQueueNotOvercrowded | pages/DoctorDashboard.tsx:55-57 | fewer than five records are never overcrowded |
| QueueMetrics.TriageData | pages/DoctorDashboard.tsx:63-68 | four entries Emergency, Critical, Intermediate, Normal carrying the matching counts |
| QueueMetrics.ChartCoversQueue | pages/DoctorDashboard.tsx:63-68 | when every level is an enum member, the chart values sum to the queue length |
| PatientDashboardPage.UserAppointment | pages/PatientDashboard.tsx:27 | `userApp`: the first appointment with the user's patientId, or none exactly when there is none |
| PatientDashboardPage.QueuePosition | pages/PatientDashboard.tsx:58 | 0 without an appointment, or when no sorted record has its id; otherwise 1 + the first index holding that id, in 1..N |
| PatientDashboardPage.PositionWithinQueue | pages/PatientDashboard.tsx:27-58 | a patient with an appointment is at a position in 1..N of the sorted queue; one without is at 0 |
| PatientDashboardPage.PatientDashboard.constructor | pages/PatientDashboard.tsx:14-25 | list from the store, form shown, not loading, default form (age 25, Male, urgency 5, doctor doc1, slot 10:00) |
| PatientDashboardPage.PatientDashboard.EditForm | pages/PatientDashboard.tsx:131-167 | the form's change handlers replace the form data |
| PatientDashboardPage.PatientDashboard.ShowsBookingForm | pages/PatientDashboard.tsx:87 | the booking form is shown iff no appointment carries the user's id |
| PatientDashboardPage.PatientDashboard.AvgWaitTime | pages/PatientDashboard.tsx:57 | the wait estimate is a whole multiple of 12 minutes: 12 per record in the queue |
| PatientDashboardPage.PatientDashboard.HandleSubmit | pages/PatientDashboard.tsx:29-57 | the store gains exactly one record built from the user, the form and the triage result, with isOffline false; the page list is the store's; the flags are cleared; the booking form is hidden; the wait estimate grows by 12 minutes |
| PatientDashboardPage.PatientDashboard.MyQueuePosition | pages/PatientDashboard.tsx:56-58 | 0 while the booking form is shown; otherwise 1 + the first index of the sorted snapshot holding the patient's appointment id, in 1..N |
| StaffDashboardPage.ScoreColour | pages/StaffDashboard.tsx:111 | red iff score > 80; orange iff 50 < score ≤ 80; green iff score ≤ 50 |
| StaffDashboardPage.ScoreColourMonotone | pages/StaffDashboard.tsx:111 | a higher score never shows a less urgent colour |
| StaffDashboardPage.LevelColour | pages/StaffDashboard.tsx:117-121 | red iff CRITICAL; orange iff INTERMEDIATE; green otherwise |
| StaffDashboardPage.EmergencyBadgeIsGreen | pages/StaffDashboard.tsx:111-121 | an EMERGENCY record shows a green badge beside a red score bar |
| StaffDashboardPage.QueueRows | pages/StaffDashboard.tsx:101-103 | one row per sorted record, in order; row k shows rank k+1 |
| StaffDashboardPage.TableFollowsPriority | pages/StaffDashboard.tsx:44-111 | the sorted table lists every record once, ranks increase, and scores never increase down the table |
| StaffDashboardPage.StaffDashboard.constructor | pages/StaffDashboard.tsx:13-18 | list from the store; modal closed; not loading; default form |
| StaffDashboardPage.StaffDashboard.OpenIntake | pages/StaffDashboard.tsx:54 | the offline-patient button opens the modal |
| StaffDashboardPage.StaffDashboard.CancelIntake | pages/StaffDashboard.tsx:162 | Cancel closes the modal |
| StaffDashboardPage.StaffDashboard.EditForm | pages/StaffDashboard.tsx:146-159 | the intake form's change handlers replace the form data |
| StaffDashboardPage.StaffDashboard.HandleAddOffline | pages/StaffDashboard.tsx:20-42 | the store gains exactly one walk-in record: isOffline true, doctor 'doc1', patientId starting 'offline-', form fields copied, triage from `analyzeTriage`; the new level's count rises by one; the form resets to ('', 30, Male, urgency 5, ASAP); the modal closes |
| StaffDashboardPage.StaffDashboard.CriticalCount | pages/StaffDashboard.tsx:71 | the number of CRITICAL records |
| StaffDashboardPage.StaffDashboard.NormalCount | pages/StaffDashboard.tsx:75 | the number of NORMAL records |
| StaffDashboardPage.StaffDashboard.Table | pages/StaffDashboard.tsx:44-103 | rows come from the store's sorted snapshot: row k has rank k+1 and scores do not increase |
| Login.SignInUser | pages/LoginPage.tsx:21-38 | the staff account first, then the doctor account, then the store's first user with that email (no earlier user has it); none exactly when the store has no such user |
| Login.HardCodedAccount | pages/LoginPage.tsx:22-31 | the staff account iff both staff credentials match; the doctor account iff both doctor credentials match; none iff neither pair matches |
| Login.HardCodedBypassesStore | pages/LoginPage.tsx:21-31 | a hard-coded sign-in ignores the registered users and never yields a patient |
| Login.StoreSignInIgnoresPassword | pages/LoginPage.tsx:33 | past the hard-coded accounts, the password makes no difference |
| Login.WrongStaffPasswordFallsThrough | pages/LoginPage.tsx:22-33 | the staff email with a wrong password goes to the store lookup |
| Login.LoginPage.constructor | pages/LoginPage.tsx:13-15 | empty email, password and error |
| Login.LoginPage.EditCredentials | pages/LoginPage.tsx:60-72 | the inputs set the email and password |
| Login.LoginPage.FillStaffDemo | pages/LoginPage.tsx:95 | fills in the staff credentials |
| Login.LoginPage.FillDoctorDemo | pages/LoginPage.tsx:96 | fills in the doctor credentials |
| Login.LoginPage.HandleLogin | pages/LoginPage.tsx:17-39 | clears the error and signs in as `SignInUser` says; the error is set iff nobody is signed in; only the store path changes the store's current user |
| AppShell.DashboardMatchesRole | App.tsx:34-53 | a dashboard is shown iff the view is DASHBOARD and there is a user, and it is the dashboard for that user's role; LOGIN and REGISTER show their own pages; DASHBOARD without a user shows the login page |
| AppShell.ScreenFor | App.tsx:34-53 | LOGIN and REGISTER show their own pages; DASHBOARD without a user shows the login page; with a user it shows the dashboard of the user's role |
| AppShell.App.constructor | App.tsx:12-13 | the view starts at LOGIN; the user starts as the store's current user |
| AppShell.App.Mount | App.tsx:15-21 | with a stored session, the user is set and the view goes to DASHBOARD; otherwise nothing changes |
| AppShell.App.HandleLogin | App.tsx:23-26 | sets the user and the DASHBOARD view |
| AppShell.App.HandleLogout | App.tsx:28-32 | clears the store's current user and the user; the view goes to LOGIN |
| AppShell.App.GoToRegister | App.tsx:51 | the login page's register link moves to REGISTER |
| AppShell.App.GoToLogin | App.tsx:52 | the register page's back link returns to LOGIN |
| AppShell.App.SignIn | App.tsx:23-26 | a successful login attempt passes its user to `handleLogin` and clears the error; a failed one leaves the view and the user unchanged and shows the error; the store's session becomes the signed-in user only on the store path and is otherwise unchanged |
| AppShell.App.Current | App.tsx:34-53 | in every reachable state, the DASHBOARD view shows the signed-in user's own dashboard |

## Left out

- Persistence: `save` and the JSON load in the constructor. These are localStorage I/O. The constructor takes the loaded lists as parameters, and a missing snapshot is an empty list.
- The Gemini request: the client, the prompt, the model name and the response schema. It is an oracle answer, `TriageService.Response`.
- JSON values of the wrong type in a parsed answer (a numeric `level`, a string `score`, NaN): fields are modelled as optional strings and integers.
- `Math.random` ids and `new Date().toISOString()` timestamps: they are method parameters. Id uniqueness is not guaranteed by the code and is not assumed.
- Numbers are unbounded integers. Ages, urgencies and scores with fractions, and JavaScript's floating point, are not modelled.
- `setMutation` with a key present but `undefined`: `{...m}` would copy the `undefined`. Here a patch field is either supplied or absent.
- Aliasing: `getAppointments` returns the store's array itself. The model copies the value and keeps page and store equal through each page's `Valid()`.
- The `loading` flags and `await`: each submit handler is one sequential step. Only the final flag values are stated.
- Rendering: JSX, styling, the recharts charts and the static figures of the doctor dashboard. The patient page's level colour is also left out.
- Doctor directory: `MOCK_DOCTORS` availability and locale date formatting. Only `MOCK_DOCTORS[0].id` ('doc1') is used, as the default doctor.
- `RegisterPage`: it forwards its form to `registerUser` and navigates. `Store.RegisterUser` and `App.GoToLogin` model both steps.
- `renderDashboard`'s `default: Error` branch: the role is an enum here, so it cannot occur.
- The "Check In" button: it has no handler, so there is no removal.
- The `console.error` logging in the fallback branch (services/geminiService.ts:47): it is console output and does not change the result.
- The browser's form checks: `required` and `type="email"` (pages/LoginPage.tsx:55-56, pages/PatientDashboard.tsx:144, 148, pages/StaffDashboard.tsx:146, 156). They run before a handler is called, and the handlers themselves accept any input, which is what the model states.
