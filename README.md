# CardiacTek screen logic in Dafny

CardiacTek is a set of React / React Native screens for a cardiac-health
companion app. Almost all of it is markup. This project models the event
handlers that hold logic and proves what they do:

- **Medication tracker** (`medication_tracker.dfy`, module `MedicationTracker`).
  Each medication has parallel `taken[]` / `skipped[]` flags, one per time
  slot. There are two mark handlers and a one-minute reminder poll. The slot
  badges and the refill banner are the display rules.
  `TrackerScreen` holds the `medications` state. Its mark methods rewrite it
  through the function `MarkSlot`. Its `CheckReminders` runs the poll's nested
  loops and is proved equal to the specification `AllReminders`.
- **Login / sign-up** (`auth_screen.dfy`, module `AuthScreen`).
  `validatePassword`'s five character-class checks. `validateEmail`'s
  pattern, proved equal to a scanner. Three error-map builders:
  `handleSubmit`'s `newErrors`, `handleInputChange`'s queued updates and
  `handleForgotPassword`.
  `AuthForm` holds `isLogin`, the form, `errors` and the forgot-password flag.
- **Symptom checker** (`symptom_checker.dfy`, module `SymptomChecker`).
  Two add/remove-by-id toggles, the chat send with its delayed assistant reply,
  and the guard on the analysis button.
- **Medical records** (`medical_records.dfy`, module `MedicalRecords`).
  Records are filtered by category and by a case-insensitive search, keeping
  their order. Each status maps to a badge class.
- **Dashboard** (`patient_dashboard.dfy`, module `PatientDashboard`).
  A tap flips one medication's `taken`. The modal's inputs fill the
  `newSymptom` form, and "Add Symptom" prepends it to the symptom log and
  resets the form; the scenario `LogAfterChoosingType` walks through this.
- **Emergency SOS** (`emergency.dfy`, module `Emergency`).
  The state machine over `countdown` (a number or `null`) and `sosActive`,
  driven by interval ticks and two cancel buttons. JavaScript's `null <= 1`
  is written out as `ToNumber(null) == 0`.

`js_text.dfy` (module `JsText`) holds three JavaScript string operations:
the whitespace class of `\s` and `trim`, `toLowerCase` on ASCII letters, and
`includes`. `sequences.dfy` (module `Sequences`) defines order-preserving
sublists, and `wrappers.dfy` holds `Option`.

Timers are events. `setInterval` firings are `Tick` / `IntervalTick` calls.
`liveIntervals` counts the intervals not yet cleared. The chat's `setTimeout`
reply is `DeliverReply`, fed from a queue of the ids captured at send time.
Clock readings are parameters: `toTimeString()` is `timeString`,
`toLocaleTimeString()` is `now`, and `Date.now()` is an `int`. Alerts and logs
are not modelled. A reminder poll returns its alerts as a list of
(medication id, slot index) pairs.

Where the design description and the code differ, the model follows the code.
The design speaks of an adherence ratio and a day-by-day dose scheduler. The
code computes neither: its adherence figures are constants. The design says a
reminder fires when the poll lands on the due minute. As written, no stored
slot can ever match the polled time (see Findings).

## Model

| member | source | states |
|---|---|---|
| `MedicationTracker.MarkSlot` | MyApp/src/screens/MedicationTrackerScreen.js:112-140 | for every medication with the id, slot `i` gets the mark (taken true/skipped false or the reverse) and every other slot keeps its flags; flag lengths and all non-status fields are kept; other medications are copied unchanged |
| `MedicationTracker.MarkSlotKeepsExclusive` | MyApp/src/screens/MedicationTrackerScreen.js:112-140 | if no slot was both taken and skipped before a mark, none is after it |
| `MedicationTracker.LastMarkWins` | MyApp/src/screens/MedicationTrackerScreen.js:112-140 | the last mark decides: taken after skipped equals taken alone and the reverse; with equal marks, marking is idempotent |
| `MedicationTracker.MarkUnknownIdIsNoOp` | MyApp/src/screens/MedicationTrackerScreen.js:113-122 | a mark for an id no medication has leaves the list unchanged |
| `MedicationTracker.ViewOfSlot` | MyApp/src/screens/MedicationTrackerScreen.js:222-245 | the action buttons iff neither flag is set; the "Taken" badge iff the taken flag is set; the "Skipped" badge iff only the skipped flag is set (out-of-range flags read as unset) |
| `MedicationTracker.ViewAfterMark` | MyApp/src/screens/MedicationTrackerScreen.js:222-245 | after a mark, the slot shows the "Taken" or "Skipped" badge instead of the buttons |
| `MedicationTracker.RefillAlertUnaffected` | MyApp/src/screens/MedicationTrackerScreen.js:250 | marks never change the refill banner (shown iff fewer than 30 pills); no initial medication shows it; Lisinopril's 30 is on the threshold |
| `MedicationTracker.RefillAlert` | MyApp/src/screens/MedicationTrackerScreen.js:250 | the refill banner shows iff fewer than 30 pills remain; its properties are in `RefillAlertUnaffected` |
| `MedicationTracker.CurrentTime` | MyApp/src/screens/MedicationTrackerScreen.js:76 | `slice(0, 5)` yields a prefix of the time string of length 5, or the whole string if it is shorter |
| `MedicationTracker.ReminderDue` | MyApp/src/screens/MedicationTrackerScreen.js:81 | one slot is due iff its medication has reminders on, the slot exists and equals the current time, and neither flag is set at it |
| `MedicationTracker.AllReminders` | MyApp/src/screens/MedicationTrackerScreen.js:78-94 | the alerts of one poll: medication by medication, slot by slot, one (id, index) per due slot; characterised by `RemindersIff` and matched by `TrackerScreen.CheckReminders` |
| `MedicationTracker.RemindersIff` | MyApp/src/screens/MedicationTrackerScreen.js:78-81 | a poll raises (medId, index) iff a medication with that id has reminders on, `times[index]` equal to the current time, and neither flag set at that index |
| `MedicationTracker.OnlyFiveCharacterSlotsRemind` | MyApp/src/screens/MedicationTrackerScreen.js:76-81 | every reminder raised is for a slot string of exactly five characters |
| `MedicationTracker.InitialScheduleNeverReminds` | MyApp/src/screens/MedicationTrackerScreen.js:21-81 | with the initial slots ("8:00 AM", "8:00 PM", "12:00 PM") no poll ever raises a reminder |
| `MedicationTracker.ClockSlot` | MyApp/src/screens/MedicationTrackerScreen.js:27 | a clock time 0..23:0..59 written in the slots' 12-hour form "h:MM AM" is 7 or 8 characters |
| `MedicationTracker.ClockSlotInjective` | MyApp/src/screens/MedicationTrackerScreen.js:27 | distinct clock minutes give distinct slot strings |
| `MedicationTracker.ClockReminderDue` | MyApp/src/screens/MedicationTrackerScreen.js:81 | corrected rule: a slot is due iff its medication has reminders on, the slot exists and equals the clock written in slot form (`ClockSlot`), and neither flag is set at it |
| `MedicationTracker.ClockReminderFiresAtItsMinute` | MyApp/src/screens/MedicationTrackerScreen.js:81 | corrected rule: a pending slot due at h:m is reminded of at that minute and at no other minute of the day |
| `MedicationTracker.InitialScheduleRemindsWhenCorrected` | MyApp/src/screens/MedicationTrackerScreen.js:21-70 | under the corrected rule the pending initial slots fire at 20:00, 12:00 and 20:00 |
| `MedicationTracker.TrackerScreen.constructor` | MyApp/src/screens/MedicationTrackerScreen.js:21-70 | the screen starts with the three initial medications |
| `MedicationTracker.TrackerScreen.MarkAsTaken` | MyApp/src/screens/MedicationTrackerScreen.js:112-125 | the new `medications` is `MarkSlot(old, medId, timeIndex, Taken)` |
| `MedicationTracker.TrackerScreen.MarkAsSkipped` | MyApp/src/screens/MedicationTrackerScreen.js:127-140 | the new `medications` is `MarkSlot(old, medId, timeIndex, Skipped)` |
| `MedicationTracker.TrackerScreen.CheckReminders` | MyApp/src/screens/MedicationTrackerScreen.js:74-95 | the nested loops return exactly `AllReminders(medications, CurrentTime(timeString))`, in medication then slot order |
| `AuthScreen.HasCharIn` | MyApp/src/screens/AuthScreen.js:36-39 | a class test is true iff some character of the string is in the class |
| `AuthScreen.ValidatePassword` | MyApp/src/screens/AuthScreen.js:33-41 | length iff at least 8 characters; uppercase / lowercase / number / special iff some character is in A–Z / a–z / 0–9 / `!@#$%^&*` |
| `AuthScreen.MeetsRequirements` | MyApp/src/screens/AuthScreen.js:95-98 | `every((v) => v)` over the five checks: all five hold |
| `AuthScreen.EmptyPasswordFails` | MyApp/src/screens/AuthScreen.js:35 | the empty password does not meet the requirements |
| `AuthScreen.ValidateEmail` | MyApp/src/screens/AuthScreen.js:28-31 | the scanner accepts exactly the strings matching `^[^\s@]+@[^\s@]+\.[^\s@]+$` |
| `AuthScreen.EmailAcceptedIff` | MyApp/src/screens/AuthScreen.js:29 | accepted iff exactly one '@', not first; no whitespace; a '.' after the '@' that is neither right after it nor last |
| `AuthScreen.FormData.Set` | MyApp/src/screens/AuthScreen.js:44 | the named field takes the value, the other fields keep theirs |
| `AuthScreen.SubmitErrors` | MyApp/src/screens/AuthScreen.js:78-104 | email error iff invalid, "Email is required" when empty else "Invalid email format"; login: only email and password keys, password error iff empty; sign-up: full-name error iff empty, password error iff rules fail (the rules message replaces "required"), confirm error iff mismatch |
| `AuthScreen.SubmitSucceedsIff` | MyApp/src/screens/AuthScreen.js:106-113 | the error map is empty iff email valid, password non-empty and, when signing up, name present, rules met and passwords equal |
| `AuthScreen.Reflagged` | MyApp/src/screens/AuthScreen.js:50-75 | the edited field is flagged again iff its value is non-empty and: for the email, it is invalid; for the password, signing up and the rules fail; for the confirmation, signing up and it differs from the stored password; the full name never |
| `AuthScreen.InputChangeErrors` | MyApp/src/screens/AuthScreen.js:43-76 | other fields' errors are untouched; the edited field gets its re-check message if flagged (email format; password rules and confirm mismatch only when signing up), otherwise keeps its presence with a blank message |
| `AuthScreen.ForgotPasswordError` | MyApp/src/screens/AuthScreen.js:121-129 | no error iff the email is valid; "Please enter your email" iff empty; "Invalid email format" otherwise |
| `AuthScreen.AuthForm.constructor` | MyApp/src/screens/AuthScreen.js:15-26 | login mode, empty form, no errors, forgot-password closed |
| `AuthScreen.AuthForm.SelectMode` | MyApp/src/screens/AuthScreen.js:158-177 | the tabs set the mode, clear all errors and close the forgot-password form |
| `AuthScreen.AuthForm.SetShowForgotPassword` | MyApp/src/screens/AuthScreen.js:499 | the link opens the forgot-password form (the back button at line 229 closes it); nothing else changes |
| `AuthScreen.AuthForm.InputChange` | MyApp/src/screens/AuthScreen.js:43-76 | the form gets the field's value and the errors become `InputChangeErrors` of the old state |
| `AuthScreen.AuthForm.Submit` | MyApp/src/screens/AuthScreen.js:78-114 | success iff `SubmitErrors` is empty; on failure the errors are replaced by it, on success nothing changes |
| `AuthScreen.AuthForm.ForgotPassword` | MyApp/src/screens/AuthScreen.js:121-132 | valid email: link sent, form closed, errors kept; otherwise the whole error map becomes the single email message |
| `JsText.Includes` | MyApp/src/screens/MedicalRecords.js:83-84 | `includes` is true iff the needle occurs at some index of the string |
| `JsText.IsWhitespace` | MyApp/src/screens/AuthScreen.js:29 | the code points ECMAScript counts as WhiteSpace or LineTerminator, the set `\s` matches and `trim` removes |
| `JsText.IsBlank` | MyApp/src/screens/SymptomCheckerScreen.js:81 | `inputText.trim()` is empty, that is falsy, iff every character is whitespace |
| `JsText.ToLower` | MyApp/src/screens/MedicalRecords.js:83-84 | same length, every character mapped on its own, A–Z to a–z and all else kept |
| `SymptomChecker.Remove` | MyApp/src/screens/SymptomCheckerScreen.js:74 | the filter keeps exactly the other ids in their original order (an order-preserving subsequence), each as often as in the list, drops every copy of the id, and is the list itself when the id is absent |
| `SymptomChecker.Toggle` | MyApp/src/screens/SymptomCheckerScreen.js:72-78 | a present id is removed and other ids keep their membership; an absent id is appended at the end |
| `SymptomChecker.ToggleKeepsNoDuplicates` | MyApp/src/screens/SymptomCheckerScreen.js:72-78 | a duplicate-free list stays duplicate-free |
| `SymptomChecker.ToggleTwice` | MyApp/src/screens/SymptomCheckerScreen.js:72-78 | two toggles of one id restore every id's membership, and the list itself when the id was absent |
| `SymptomChecker.CheckerScreen.constructor` | MyApp/src/screens/SymptomCheckerScreen.js:18-28 | nothing selected or bookmarked, only the greeting (id 1) in the chat, empty input |
| `SymptomChecker.CheckerScreen.ToggleSymptom` | MyApp/src/screens/SymptomCheckerScreen.js:72-78 | `selectedSymptoms` becomes `Toggle(old, id)`, all else unchanged |
| `SymptomChecker.CheckerScreen.ToggleBookmark` | MyApp/src/screens/SymptomCheckerScreen.js:112-118 | `bookmarkedArticles` becomes `Toggle(old, id)`, all else unchanged |
| `SymptomChecker.CheckerScreen.SetInputText` | MyApp/src/screens/SymptomCheckerScreen.js:249 | only the input text changes |
| `SymptomChecker.CheckerScreen.SendMessage` | MyApp/src/screens/SymptomCheckerScreen.js:80-91 | whitespace-only input changes nothing; otherwise one user message with id length + 1 and the untrimmed text is appended, the input is cleared and a reply with id length + 2 is scheduled |
| `SymptomChecker.CheckerScreen.DeliverReply` | MyApp/src/screens/SymptomCheckerScreen.js:92-100 | the earliest scheduled reply appends an assistant message with its captured id to the current chat |
| `SymptomChecker.CheckerScreen.AnalyzeSymptoms` | MyApp/src/screens/SymptomCheckerScreen.js:104-110 | the analysis happens iff some symptom is selected |
| `MedicalRecords.FilterRecords` | MyApp/src/screens/MedicalRecords.js:81-86 | the result is an order-preserving subsequence of the records (so no longer) holding exactly the records whose category matches ('all' or the type) and whose lower-cased title or doctor contains the lower-cased term |
| `MedicalRecords.FilterRecordsCounts` | MyApp/src/screens/MedicalRecords.js:81-86 | the filter keeps each passing record exactly as often as the list holds it, and no copy of a record that fails |
| `MedicalRecords.Matches` | MyApp/src/screens/MedicalRecords.js:82-85 | a record passes iff the category is 'all' or its type, and its lower-cased title or doctor contains the lower-cased search term |
| `MedicalRecords.AllWithEmptySearchKeepsEverything` | MyApp/src/screens/MedicalRecords.js:82-84 | category 'all' with an empty search returns every record |
| `MedicalRecords.CategoryWithinAll` | MyApp/src/screens/MedicalRecords.js:82-85 | the result for one category is a subsequence of the result for 'all' with the same term |
| `MedicalRecords.StatusColor` | MyApp/src/screens/MedicalRecords.js:88-95 | Normal, Good and Review each map to their own class, any other status to the gray default |
| `PatientDashboard.ToggleTaken` | MyApp/src/screens/PatientDashboard.js:28-32 | `taken` flips exactly for the entries with the id; other fields and the length are kept |
| `PatientDashboard.ToggleTakenTwice` | MyApp/src/screens/PatientDashboard.js:28-32 | two toggles of one id restore the list |
| `PatientDashboard.LogSymptom` | MyApp/src/screens/PatientDashboard.js:34-41 | an empty type leaves the log; otherwise one entry (type, severity, "Just now") is prepended before the old entries in order |
| `PatientDashboard.Dashboard.constructor` | MyApp/src/screens/PatientDashboard.js:6-16 | the initial checklist, symptom log, blank form and closed modal |
| `PatientDashboard.Dashboard.ToggleMedication` | MyApp/src/screens/PatientDashboard.js:28-32 | `medications` becomes `ToggleTaken(old, id)`, all else unchanged |
| `PatientDashboard.Dashboard.SetSymptomType` | MyApp/src/screens/PatientDashboard.js:252 | the select writes the form's type and keeps its severity and notes; nothing else changes |
| `PatientDashboard.Dashboard.SetSeverity` | MyApp/src/screens/PatientDashboard.js:265 | a severity button writes the form's severity and keeps its type and notes; nothing else changes |
| `PatientDashboard.Dashboard.SetNotes` | MyApp/src/screens/PatientDashboard.js:273 | the text area writes the form's notes and keeps its type and severity; nothing else changes |
| `PatientDashboard.Dashboard.SetShowSymptomModal` | MyApp/src/screens/PatientDashboard.js:170 | the "Add" link opens the form (the modal's "Cancel" at line 277 closes it); the entered values are kept, nothing else changes |
| `PatientDashboard.Dashboard.AddSymptom` | MyApp/src/screens/PatientDashboard.js:34-45 | added iff a type is chosen; the log becomes `LogSymptom`; after an add the form resets to type '', severity 'Mild', notes '' and the modal closes; otherwise nothing changes |
| `Emergency.Mode` | MyApp/src/screens/Emergency.js:69-100 | exactly one of activated, counting or ready is shown, checked in that order |
| `Emergency.AtMostOne` | MyApp/src/screens/Emergency.js:31 | `prev <= 1` as JavaScript evaluates it: true for `null`, which ToNumber turns into 0, otherwise iff the count is at most 1 |
| `Emergency.Activate` | MyApp/src/screens/Emergency.js:27-29 | the panel shows the count 5 (unless the SOS is already up) and one more interval runs |
| `Emergency.Tick` | MyApp/src/screens/Emergency.js:30-36 | with no interval live nothing happens; a firing never adds intervals; with an interval live and a count of at most 1 (`null` counts as 0) one interval is cleared, the SOS is raised and the count emptied; with a count n > 1 the count becomes n - 1 and the SOS flag and intervals are kept |
| `Emergency.CancelCountdown` | MyApp/src/screens/Emergency.js:89 | as written: the panel is back to the button but the number of live intervals is unchanged |
| `Emergency.CancelAlert` | MyApp/src/screens/Emergency.js:79 | the SOS is down; the count and the intervals are unchanged |
| `Emergency.CancelCountdownClearing` | MyApp/src/screens/Emergency.js:89 | corrected cancel: the panel is back to the button and one interval fewer is live; with at most one, the screen is idle again |
| `Emergency.CountdownRuns` | MyApp/src/screens/Emergency.js:29-38 | with one interval and count n, ticks 1..n-1 count down with the SOS off, and tick n raises it, empties the count and clears the interval |
| `Emergency.NoTickAfterStop` | MyApp/src/screens/Emergency.js:31-34 | with no interval live, ticks change nothing |
| `Emergency.FifthTickActivates` | MyApp/src/screens/Emergency.js:27-38 | after activation the panel counts 5..1 and the SOS becomes active on exactly the 5th tick, then stays so |
| `Emergency.CancelThenTickActivates` | MyApp/src/screens/Emergency.js:89 | as written, a cancel after 0–4 ticks shows the ready button, yet the next tick (prev = null, null <= 1) activates the SOS |
| `Emergency.CorrectedCancelStaysCancelled` | MyApp/src/screens/Emergency.js:89 | a cancel that also clears the interval leaves the screen ready through any number of later ticks |
| `Emergency.EmergencyScreen.constructor` | MyApp/src/screens/Emergency.js:5-6 | SOS off, countdown null, no interval |
| `Emergency.EmergencyScreen.ActivateSOS` | MyApp/src/screens/Emergency.js:27-29 | the count becomes 5 and one more interval runs |
| `Emergency.EmergencyScreen.IntervalTick` | MyApp/src/screens/Emergency.js:29-38 | the state becomes `Tick(old)`: at most 1 (null compares as 0) clears the interval, raises the SOS and empties the count, else the count drops by 1 |
| `Emergency.EmergencyScreen.Cancel` | MyApp/src/screens/Emergency.js:89 | count null and SOS off; the interval keeps running |
| `Emergency.EmergencyScreen.CancelSosAlert` | MyApp/src/screens/Emergency.js:79 | only the SOS flag is cleared |

## Findings

| source | as written | input that shows it | evidently intended | confidence | as-written member | corrected member |
|---|---|---|---|---|---|---|
| MyApp/src/screens/Emergency.js:89 | "Cancel" sets `countdown` to null and `sosActive` to false but never clears the interval; its next run reads `prev = null`, and `null <= 1` is true | activate, two ticks (count 3), Cancel, one tick: the SOS is raised at the interval's next firing, within a second of the cancel | Cancel stops the countdown and no SOS follows | not executed | `Emergency.CancelThenTickActivates` | `Emergency.CorrectedCancelStaysCancelled` |
| MyApp/src/screens/MedicationTrackerScreen.js:76-81 | slots are compared with `toTimeString().slice(0, 5)`, always "HH:MM" (e.g. "20:00"), while stored slots read "8:00 PM" | any clock time with the initial medications: "20:00" never equals "8:00 PM", so no reminder ever fires | remind when the clock reaches the slot's time | not executed | `MedicationTracker.InitialScheduleNeverReminds` | `MedicationTracker.ClockReminderFiresAtItsMinute` |

Each corrected rule is defined next to the as-written one
(`CancelCountdownClearing`, `ClockReminderDue`). The screen classes
(`EmergencyScreen`, `TrackerScreen`) keep the behaviour as written, because
they model the code.

The two scenarios `Emergency.CancelScenario` and
`SymptomChecker.TwoSendsBeforeReply` drive the screen classes and show more
behaviour. In the second, two messages are sent within the one-second reply
delay. The first reply then takes id 3, the same id as the second user
message, because ids come from the list length at send time.

## Left out

- Rendering, styling and navigation: JSX, style sheets, Tailwind class interpolation, icons, the navigator files.
- Screens with no logic worth modelling. PrivacyData, PatientAppointment, VitalsMonitoringScreen and LifestyleRehab hold static data and view setters; LifestyleRehab's progress bars use floating point. EducationHub is truncated before its logic. SecureMessaging's send only clears the input.
- View-only state setters: tabs, selected medication or record, the details modal, role selection, password visibility.
- Stub actions are foreign calls: social login, refill request, leaflet, video call, export and deletion dialogs.
- Adherence figures and history: they are constants (MedicationTrackerScreen.js:101-105) or `Math.random`, and no adherence ratio is computed.
- `Alert.alert`, `alert` and `console.log`. A reminder is returned as a (medication id, slot) pair; the alert's "Mark Taken" / "Skip" buttons are separate calls to the mark methods.
- Wall-clock timing. The 60-second poll and its re-registration when `medications` changes are not modelled, nor the 1-second SOS interval or the 1-second reply delay. Each firing is an explicit event; pending replies are assumed to fire in send order.
- Timers outliving the screen (a tick or a reply after unmount).
- `Emergency.Tick`: `liveIntervals` counts live intervals without telling them apart; a tick is one firing of any of them.
- React scheduling: functional updates are applied in the order they are queued. React's batching and strict-mode double invocation of updaters are not modelled.
- `JsText.ToLower`: lower-cases only A–Z, because JavaScript's full Unicode case mapping is out of scope; non-ASCII letters are compared as they are.
- `AuthScreen.ValidatePassword`: length counts Unicode code points, while JavaScript's `length` counts UTF-16 code units, so a character outside the Basic Multilingual Plane counts 1 here and 2 there.
- `AuthScreen.InputChangeErrors`: fields are the four the form uses. JavaScript's computed key would accept any field name.
