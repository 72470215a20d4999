# first-aid screens in Dafny

A model of the logic inside the screens of the first-aid mobile front end. Each
screen works over an in-memory seed array and has two kinds of logic:
- list transforms: filter, update-by-id map, append, delete;
- input validation: required fields, a phone pattern and an amount pattern.

Each screen is modelled as a Dafny module holding
- the seed records as constants;
- the list transforms as functions, with lemmas that state what they mean;
- a class of the screen's state, whose methods are the screen's handlers and
  effects, each stating its complete new state.

The modules are:

| module | screen |
|---|---|
| `Common` | shared pieces: optional values, the toast record every screen keeps (message, kind, visible, plus whether a hide step is scheduled), `find` by id, subsequences, decimal rendering of numbers |
| `Patterns` | the two regular expressions, each a recogniser proved equal to a reference definition: the phone format `+251-` three digits `-` six digits, and the amount format "digits, optionally `.` and one or two digits" |
| `InstitutionsFilter` | emergency-institution filter: duplicate-free option lists and a three-criterion AND filter over a 20-record seed |
| `BookedAppointments` | booked appointments: cancel and reschedule as update-by-id maps over five appointments, with the status machine Confirmed / Pending / Cancelled |
| `EmergencyContacts` | emergency contacts: add with a length-derived id, merge-by-id update with a phone check, and filter-by-id delete |
| `BookAppointment` | booking form: the seven-field schema, the hospital → doctor → date → time-slot cascade, and the submit handler |
| `InstitutionDetails`, `MedicalHistoryDetails` | the two detail screens: find-first-by-id over a two-record seed, with a not-found path |

Conventions:
- Every handler is atomic. A simulated delay, the user's answer to a
  confirmation dialog and a failing navigation call are parameters or
  separate events.
- The three-second hide of `showToast` is the event `ToastTimerFires`.
- Effects of React screens re-run only when a watched value changes. The
  booking cascade is modelled render by render, as the effects fire.

## Model

| member | source | states |
|---|---|---|
| `Common.Toast.Expired` | app/emergency-institutions-filter/index.tsx:244-252 | the hide step makes a toast invisible only if showToast scheduled it; message and kind are kept |
| `Common.Shown` | app/emergency-institutions-filter/index.tsx:244-252 | showToast puts the toast on screen with its message and kind, and its scheduled hide step takes it off again with the message kept |
| `Common.Raised` | app/emergency-institution-details/index.tsx:52-54 | the three setters of the not-found branch make the toast visible with the message and kind and schedule no hide, so without a pending hide the timer event leaves it as it is |
| `Common.DetailViewOf` | app/emergency-institution-details/index.tsx:69-75 | a details screen shows only the loading view iff no record is set; otherwise the record with the toast component, which puts the message on screen iff the `visible` flag is set |
| `Common.NotFoundShownOnlyOverRecord` | app/patient-medical-history-details/index.tsx:50-53 | at the render of a miss, the not-found toast is on screen only over a record an earlier lookup found; with no record set nothing but "Loading..." is seen |
| `Common.NotFoundShownOverLaterHit` | app/emergency-institution-details/index.tsx:47-57 | a hit after a miss sets the record and leaves the toast state alone, so the not-found message is rendered over the record found, and with no hide pending a timer event leaves it there |
| `Common.FindFirst` | app/emergency-institution-details/index.tsx:49 | `find` gives None iff no element has the id; otherwise it gives an element with that id, and no earlier element has it |
| `Common.DecimalString` | app/manage-emergency-contacts/index.tsx:103 | the rendering of a number is a non-empty digit string that starts with '0' only for zero |
| `Common.DecimalRoundTrip` | app/manage-emergency-contacts/index.tsx:103 | reading the rendered digits back gives the number |
| `Common.DecimalInjective` | app/manage-emergency-contacts/index.tsx:103 | distinct numbers render as distinct strings |
| `Patterns.IsPhone` | app/manage-emergency-contacts/index.tsx:132-133 | the anchored phone pattern as a sequence of literal and digit positions; `PhoneCorrect` states the strings it accepts |
| `Patterns.PhoneCorrect` | app/manage-emergency-contacts/index.tsx:132-133 | the phone recogniser accepts a string iff it has 15 characters: "+251-", three digits, "-", six digits |
| `Patterns.PhoneAccepted` | app/manage-emergency-contacts/index.tsx:132-133 | the example number "+251-911-123456" is accepted |
| `Patterns.PhoneRejected` | app/manage-emergency-contacts/index.tsx:132-133 | "0911123456", "+251-911-12345" and "+251 911 123456" are rejected |
| `Patterns.IsAmount` | app/book-appointment/index.tsx:37-39 | the amount pattern as a deterministic automaton; `AmountCorrect` states the strings it accepts |
| `Patterns.AmountCorrect` | app/book-appointment/index.tsx:37-39 | the amount automaton accepts a string iff it is a non-empty run of digits, either alone or followed by "." and one or two final digits |
| `Patterns.AmountExamples` | app/book-appointment/index.tsx:37-39 | "12", "12.5" and "12.50" are accepted; "", "12.", ".5" and "12.345" are rejected |
| `InstitutionsFilter.Specialties` | app/emergency-institutions-filter/index.tsx:207-209 | the specialty column has one entry per record, in seed order |
| `InstitutionsFilter.AllServices` | app/emergency-institutions-filter/index.tsx:212-214 | a service is in the flattened list iff some record offers it |
| `InstitutionsFilter.Dedup` | app/emergency-institutions-filter/index.tsx:207-215 | the option list holds exactly the values of its input, each once |
| `InstitutionsFilter.DedupFirstOccurrenceOrder` | app/emergency-institutions-filter/index.tsx:207-215 | option-list entries appear in the order of their first occurrence in the input |
| `InstitutionsFilter.DedupOfDistinct` | app/emergency-institutions-filter/index.tsx:207-215 | a list without duplicates is its own option list |
| `InstitutionsFilter.KeepCorrect` | app/emergency-institutions-filter/index.tsx:224-238 | one filter step (specialty equality, service membership or availability equality) gives an order-preserving subsequence holding each record that meets the criterion exactly as often as its input does, and no other record |
| `InstitutionsFilter.Keep` | app/emergency-institutions-filter/index.tsx:224-238 | one `.filter` step never lengthens the list; `KeepCorrect` states what it keeps |
| `InstitutionsFilter.Matching` | app/emergency-institutions-filter/index.tsx:221-240 | the reference filter: the records meeting every non-empty criterion, in input order; `MatchingCorrect` and `MatchingMembers` state its meaning and `FilterScreen.ApplyFilter` is proved equal to it |
| `InstitutionsFilter.MatchingCorrect` | app/emergency-institutions-filter/index.tsx:221-240 | the filter result is an order-preserving subsequence of the seed that holds each record meeting every non-empty criterion as often as the seed does, and no other record |
| `InstitutionsFilter.MatchingMembers` | app/emergency-institutions-filter/index.tsx:221-240 | a record is in the result iff it is in the seed and meets every non-empty criterion |
| `InstitutionsFilter.NoSelectionKeepsAll` | app/emergency-institutions-filter/index.tsx:218-238 | with all three pickers empty the result is the whole seed, as is the initial list |
| `InstitutionsFilter.KeepRefines` | app/emergency-institutions-filter/index.tsx:224-238 | one more non-empty filter step on a filter result equals filtering by the selection with that picker set |
| `InstitutionsFilter.RefineNarrows` | app/emergency-institutions-filter/index.tsx:221-238 | adding a criterion gives a subsequence of the previous result, never a longer list |
| `InstitutionsFilter.KeepCommutes` | app/emergency-institutions-filter/index.tsx:221-238 | any two filter steps give the same result in either order |
| `InstitutionsFilter.CardiologyIsFirstOnly` | app/emergency-institutions-filter/index.tsx:20-181 | on the seed, the specialty "Cardiology" returns only inst_001 |
| `InstitutionsFilter.EmergencyIsEverywhere` | app/emergency-institutions-filter/index.tsx:20-181 | on the seed, the service "Emergency" returns all 20 records |
| `InstitutionsFilter.AvailabilitySplitsInHalves` | app/emergency-institutions-filter/index.tsx:20-181 | on the seed, "Open Now" and "24/7" each return 10 records |
| `InstitutionsFilter.FilterScreen.constructor` | app/emergency-institutions-filter/index.tsx:185-203 | the initial state: empty option and result lists, the two availability options, empty pickers, hidden toast |
| `InstitutionsFilter.FilterScreen.Mount` | app/emergency-institutions-filter/index.tsx:205-219 | mounting sets the duplicate-free specialty and service lists, and lists the whole seed, which is the unfiltered result |
| `InstitutionsFilter.FilterScreen.SelectSpecialty` | app/emergency-institutions-filter/index.tsx:276 | the specialty picker sets the selected specialty |
| `InstitutionsFilter.FilterScreen.SelectService` | app/emergency-institutions-filter/index.tsx:299 | the service picker sets the selected service |
| `InstitutionsFilter.FilterScreen.SelectAvailability` | app/emergency-institutions-filter/index.tsx:318-319 | the availability picker sets the selected availability |
| `InstitutionsFilter.FilterScreen.ApplyFilter` | app/emergency-institutions-filter/index.tsx:221-242 | after the three conditional steps the list is the reference filter of the current selection, a subsequence of the seed; the success toast is shown even when nothing matched |
| `InstitutionsFilter.FilterScreen.ToastTimerFires` | app/emergency-institutions-filter/index.tsx:251 | the scheduled hide step fires |
| `BookedAppointments.Apply` | app/booked-appointments/index.tsx:153-192 | cancelling sets Cancelled and keeps date and slot; rescheduling sets both new values and Pending, from any status; id and doctor are kept |
| `BookedAppointments.NextStatus` | app/booked-appointments/index.tsx:153-192 | the status machine: no change ever leads to Confirmed; cancelling gives Cancelled and rescheduling gives Pending, from any status |
| `BookedAppointments.UpdateById` | app/booked-appointments/index.tsx:153-192 | the update-by-id map keeps the length; `UpdateByIdAt` states it position by position |
| `BookedAppointments.UpdateByIdAt` | app/booked-appointments/index.tsx:153-192 | the update-by-id map keeps length and order, changes every record with the id, leaves the others equal |
| `BookedAppointments.IdsPreserved` | app/booked-appointments/index.tsx:153-192 | cancel and reschedule keep every position's id |
| `BookedAppointments.UpdateUnknownId` | app/booked-appointments/index.tsx:153-192 | an id no record carries leaves the list unchanged |
| `BookedAppointments.CancelIdempotent` | app/booked-appointments/index.tsx:153-159 | cancelling twice equals cancelling once |
| `BookedAppointments.RescheduleRevivesCancelled` | app/booked-appointments/index.tsx:181-192 | a cancelled record that is rescheduled becomes Pending with the new date and slot |
| `BookedAppointments.SeedExamples` | app/booked-appointments/index.tsx:29-65 | on the seed, cancelling app_001 changes only its status, and rescheduling the cancelled app_003 makes it Pending with the new values |
| `BookedAppointments.AppointmentsScreen.constructor` | app/booked-appointments/index.tsx:86-105 | the first render plus the start of the mount effect: empty list, loading, no selection, pickers at the first date and slot |
| `BookedAppointments.AppointmentsScreen.LoadFinished` | app/booked-appointments/index.tsx:106-109 | the simulated fetch sets the seed and ends loading |
| `BookedAppointments.AppointmentsScreen.OpenReschedule` | app/booked-appointments/index.tsx:126-131 | opening reschedule selects the appointment, resets date and slot to the first available entries and shows the modal |
| `BookedAppointments.AppointmentsScreen.PickDate` | app/booked-appointments/index.tsx:341 | the date picker sets the new date |
| `BookedAppointments.AppointmentsScreen.PickTimeSlot` | app/booked-appointments/index.tsx:357 | the slot picker sets the new slot |
| `BookedAppointments.AppointmentsScreen.CloseReschedule` | app/booked-appointments/index.tsx:322-325 | dismissing hides the modal |
| `BookedAppointments.AppointmentsScreen.CancelAppointment` | app/booked-appointments/index.tsx:133-167 | an already-cancelled record only gets the info toast; "No" changes nothing; "Yes" cancels by id, shows the success toast and ends with loading false; the length is kept on every path |
| `BookedAppointments.AppointmentsScreen.SubmitReschedule` | app/booked-appointments/index.tsx:169-198 | no selection: nothing happens; an empty date or slot: error toast, list unchanged; otherwise reschedule by id, success toast, modal hidden, selection cleared, loading false |
| `BookedAppointments.AppointmentsScreen.ToastTimerFires` | app/booked-appointments/index.tsx:112-120 | the scheduled hide step fires |
| `EmergencyContacts.WithField` | app/manage-emergency-contacts/index.tsx:226-246 | typing into one input changes that field of the form and keeps the other two |
| `EmergencyContacts.IdOfReadsBack` | app/manage-emergency-contacts/index.tsx:102-105 | a generated id is "contact_" followed by digits that read back as the number it was made from |
| `EmergencyContacts.IdOfInjective` | app/manage-emergency-contacts/index.tsx:102-105 | different numbers give different ids |
| `EmergencyContacts.GeneratedIsNotPadded` | app/manage-emergency-contacts/index.tsx:102-105 | no generated id equals a zero-padded id such as contact_001 |
| `EmergencyContacts.Complete` | app/manage-emergency-contacts/index.tsx:85-130 | the required-fields check of add and update: name, phone and relationship all non-empty |
| `EmergencyContacts.Appended` | app/manage-emergency-contacts/index.tsx:102-106 | an add gives one more record and keeps the old list as its prefix; `AppendedShape` states the new record |
| `EmergencyContacts.AppendedShape` | app/manage-emergency-contacts/index.tsx:102-106 | an add appends exactly one record carrying the form's fields and the id "contact_" followed by the unpadded decimal digits of old length + 1, which read back as that number, and leaves the earlier records unchanged |
| `EmergencyContacts.MergeById` | app/manage-emergency-contacts/index.tsx:138-145 | the merge keeps the length; `MergeByIdAt` states it position by position |
| `EmergencyContacts.MergeByIdAt` | app/manage-emergency-contacts/index.tsx:138-145 | the update keeps length, order and ids, replaces name, phone and relationship on every record with the id, and leaves the others equal |
| `EmergencyContacts.RemoveById` | app/manage-emergency-contacts/index.tsx:162 | delete never lengthens the list; `RemoveByIdCorrect` states what it keeps |
| `EmergencyContacts.RemoveByIdCorrect` | app/manage-emergency-contacts/index.tsx:162 | delete gives an order-preserving subsequence holding each record whose id differs exactly as often as the old list does, and no record with the id |
| `EmergencyContacts.RemoveUnknownId` | app/manage-emergency-contacts/index.tsx:162 | deleting an id nobody carries changes nothing |
| `EmergencyContacts.SeedFresh` | app/manage-emergency-contacts/index.tsx:28-42 | the seed ids are distinct, and no add, whatever the list's length, generates one of them |
| `EmergencyContacts.AppendKeepsFresh` | app/manage-emergency-contacts/index.tsx:102-106 | an add keeps ids distinct and out of reach of later adds |
| `EmergencyContacts.AddsKeepIdsDistinct` | app/manage-emergency-contacts/index.tsx:102-106 | any run of adds keeps ids fresh |
| `EmergencyContacts.SeedAddsDistinct` | app/manage-emergency-contacts/index.tsx:102-106 | any run of adds from the seed, with no delete between, gives pairwise distinct ids |
| `EmergencyContacts.DeleteThenAddRepeatsId` | app/manage-emergency-contacts/index.tsx:103 | from the seed, add, delete contact_001, add: both added records get the id contact_3 |
| `EmergencyContacts.ContactsScreen.constructor` | app/manage-emergency-contacts/index.tsx:46-68 | the initial state: no contacts, empty forms, no modal, hidden toast |
| `EmergencyContacts.ContactsScreen.Mount` | app/manage-emergency-contacts/index.tsx:70-73 | mounting loads the seed, whose ids are fresh |
| `EmergencyContacts.ContactsScreen.TypeNew` | app/manage-emergency-contacts/index.tsx:226-246 | typing into the add form updates one field |
| `EmergencyContacts.ContactsScreen.TypeEdited` | app/manage-emergency-contacts/index.tsx:271-291 | typing into the edit form updates one field |
| `EmergencyContacts.ContactsScreen.AddContact` | app/manage-emergency-contacts/index.tsx:85-109 | a missing field gives the "Please fill in all fields." error with contacts unchanged; otherwise the form is appended, with no phone check, the form is reset to three empty strings and the success toast shown; fresh ids stay fresh |
| `EmergencyContacts.ContactsScreen.EditContact` | app/manage-emergency-contacts/index.tsx:111-119 | editing copies the contact's three fields into the edit form, remembers the contact and shows the modal |
| `EmergencyContacts.ContactsScreen.UpdateContact` | app/manage-emergency-contacts/index.tsx:121-150 | a missing field or a phone not of the "+251-" 3-digit "-" 6-digit shape gives its error toast with nothing else changed; otherwise, with a contact being edited, the merge by its id, modal closed, selection cleared, success toast; with none, nothing changes |
| `EmergencyContacts.ContactsScreen.DeleteContact` | app/manage-emergency-contacts/index.tsx:152-168 | declining changes nothing; confirming removes every record with the id with the success toast; the result is always a subsequence of the old list |
| `EmergencyContacts.ContactsScreen.CloseEdit` | app/manage-emergency-contacts/index.tsx:295 | dismissing hides the modal |
| `EmergencyContacts.ContactsScreen.ToastTimerFires` | app/manage-emergency-contacts/index.tsx:75-83 | the scheduled hide step fires |
| `BookAppointment.With` | app/book-appointment/index.tsx:171 | a field's onChange sets that value and no other |
| `BookAppointment.FieldError` | app/book-appointment/index.tsx:32-42 | a field fails iff it is missing or empty, or it is the amount and does not have the shape digits, optionally "." and one or two digits |
| `BookAppointment.Errors` | app/book-appointment/index.tsx:32-42 | the error map has an entry for exactly the fields that fail, all seven fields being checked |
| `BookAppointment.SchemaAccepts` | app/book-appointment/index.tsx:32-42 | the error map is empty iff all seven fields are present and non-empty and the amount has the decimal shape |
| `BookAppointment.MissingFieldReported` | app/book-appointment/index.tsx:32-42 | a missing or empty field is reported with its own "required" message |
| `BookAppointment.BadAmountReported` | app/book-appointment/index.tsx:37-39 | a present amount of the wrong shape is reported as "Enter a valid amount" |
| `BookAppointment.AmountFieldExamples` | app/book-appointment/index.tsx:37-39 | "12.50" passes the amount field, "12." gets the format message, "" gets the required message |
| `BookAppointment.Settled` | app/book-appointment/index.tsx:79-118 | the invariant of the cascade after its effects have run: doctors follow the hospital, dates are empty or the full list with a doctor chosen, slots follow the doctor and the dates together |
| `BookAppointment.SettledMeaning` | app/book-appointment/index.tsx:79-118 | in a settled cascade, doctors are non-empty iff a hospital is chosen, dates are non-empty only with a doctor chosen, and slots are non-empty iff a doctor is chosen and dates are non-empty |
| `BookAppointment.CascadeExample` | app/book-appointment/index.tsx:79-118 | choosing a hospital and then a doctor shows all three dependent lists |
| `BookAppointment.BookingScreen.constructor` | app/book-appointment/index.tsx:46-77 | the first render with the mount effects run: blank form, hospitals and payment methods loaded, dependent lists empty, settled |
| `BookAppointment.BookingScreen.HospitalEffect` | app/book-appointment/index.tsx:79-90 | the doctors list is loaded iff a hospital is chosen, and dates and slots are cleared |
| `BookAppointment.BookingScreen.DoctorEffect` | app/book-appointment/index.tsx:92-102 | the dates list is loaded iff a doctor is chosen, and slots are cleared |
| `BookAppointment.BookingScreen.SlotsEffect` | app/book-appointment/index.tsx:104-118 | slots are loaded iff a doctor is chosen and the dates the render saw are non-empty |
| `BookAppointment.BookingScreen.Change` | app/book-appointment/index.tsx:71-118 | after the effects, the cascade is settled again: a hospital change gives doctors per the hospital and empty dates and slots; a doctor change gives dates and slots per the doctor; any other change leaves the lists alone |
| `BookAppointment.BookingScreen.HandleBookAppointment` | app/book-appointment/index.tsx:130-148 | on success the success toast state (never rendered on this screen) and the route to the booked list; when navigation fails, the error toast state; loading false on both paths |
| `BookAppointment.BookingScreen.Submit` | app/book-appointment/index.tsx:62-69 | the errors are the schema's for the form; the handler runs only on a form the schema accepts, so the route changes only for a complete form with a valid amount |
| `BookAppointment.BookingScreen.ToastTimerFires` | app/book-appointment/index.tsx:120-128 | the scheduled hide step fires |
| `Common.FindByRouteId` | app/emergency-institution-details/index.tsx:49 | the lookup of a route id (used by both details screens) finds nothing iff the id is absent or no seed record has it; otherwise it finds the first record with it |
| `InstitutionDetails.Lookup` | app/emergency-institution-details/index.tsx:49 | the institution screen's `find` over its two-record seed, through `Common.FindByRouteId` |
| `MedicalHistoryDetails.Lookup` | app/patient-medical-history-details/index.tsx:47 | the medical-record screen's `find` over its two-record seed, through `Common.FindByRouteId` |
| `InstitutionDetails.InstitutionDetailsScreen.LookupEffect` | app/emergency-institution-details/index.tsx:47-57 | a hit sets the institution; a miss sets the toast fields to "Institution not found." as an error, with no hide step, and leaves the institution as it was |
| `InstitutionDetails.InstitutionDetailsScreen.constructor` | app/emergency-institution-details/index.tsx:36-57 | the first visit sets the record found; on a miss the institution stays null, the toast's `visible` flag is set with the not-found error, and the screen is the loading view with no toast on screen |
| `InstitutionDetails.InstitutionDetailsScreen.RouteChanged` | app/emergency-institution-details/index.tsx:47-57 | the lookup runs again only for a different id, with the same hit and miss outcomes |
| `InstitutionDetails.InstitutionDetailsScreen.CurrentView` | app/emergency-institution-details/index.tsx:69-75 | the screen shows only the loading view iff no institution is set; a toast message is on screen only with an institution set and the `visible` flag true |
| `InstitutionDetails.NotFoundToastStays` | app/emergency-institution-details/index.tsx:51-55 | after a first-visit miss the `visible` flag stays set through a timer event, since no hide was scheduled, yet the loading view shows no toast, so "Institution not found." is not on screen at the render of that miss |
| `InstitutionDetails.MissThenHit` | app/emergency-institution-details/index.tsx:47-57 | a first visit to an unknown id, then a route change to inst_001: the found record is shown with "Institution not found." on screen |
| `InstitutionDetails.FilterLinksMissing` | app/emergency-institution-details/index.tsx:18-33 | the institutions inst_003 to inst_020, which the filter screen links to, take the not-found path |
| `InstitutionDetails.FilterLinksPresent` | app/emergency-institution-details/index.tsx:18-33 | the first two institutions the filter screen links to are found, as the record with the same id and name |
| `MedicalHistoryDetails.RecordDetailsScreen.LookupEffect` | app/patient-medical-history-details/index.tsx:45-55 | a hit sets the record; a miss sets the toast fields to "Medical record not found." as an error, with no hide step, and leaves the record as it was |
| `MedicalHistoryDetails.RecordDetailsScreen.constructor` | app/patient-medical-history-details/index.tsx:36-55 | the first visit sets the record found; on a miss the record stays null, the toast's `visible` flag is set with the not-found error, and the screen is the loading view with no toast on screen |
| `MedicalHistoryDetails.RecordDetailsScreen.RouteChanged` | app/patient-medical-history-details/index.tsx:45-55 | the lookup runs again only for a different id |
| `MedicalHistoryDetails.RecordDetailsScreen.CurrentView` | app/patient-medical-history-details/index.tsx:67-73 | the screen shows only the loading view iff no record is set; a toast message is on screen only with a record set and the `visible` flag true |
| `MedicalHistoryDetails.RecordDetailsScreen.DownloadReport` | app/patient-medical-history-details/index.tsx:75-78 | the download button only shows its info toast |
| `MedicalHistoryDetails.RecordDetailsScreen.ToastTimerFires` | app/patient-medical-history-details/index.tsx:57-65 | the scheduled hide step fires |
| `MedicalHistoryDetails.NotFoundToastStays` | app/patient-medical-history-details/index.tsx:50-53 | after a first-visit miss the `visible` flag stays set through a timer event, yet the loading view shows no toast, so "Medical record not found." is not on screen at the render of that miss |
| `MedicalHistoryDetails.MissThenHit` | app/patient-medical-history-details/index.tsx:45-55 | a first visit to rec_003, a route change to rec_001 and a timer event: the found record is shown with "Medical record not found." still on screen |
| `MedicalHistoryDetails.HistoryLinksFound` | app/patient-medical-history/index.tsx:24-61 | of the five records the history list links to, only rec_001 and rec_002 are found, each as the same record |

## Notes on the code

- Toasts are described as transient and auto-dismissing. The detail screens'
  not-found toast is not: it is raised by the three setters directly, and no
  hide step is scheduled (app/emergency-institution-details/index.tsx:52-55,
  app/patient-medical-history-details/index.tsx:50-53). The model follows the
  code (`NotFoundToastStays`).
- The not-found toast is a set of state variables, not necessarily something
  the user sees. Both detail screens render the toast component only after an
  institution or record is set; while it is null they return the loading view
  alone (app/emergency-institution-details/index.tsx:69-75,
  app/patient-medical-history-details/index.tsx:67-73). So a first visit that
  misses sets `visible` but shows only "Loading..." at the render of that miss
  (`NotFoundShownOnlyOverRecord`). A hit only sets the record and never clears
  the toast fields, and no hide step is pending. So after a miss, the message
  is on screen whenever a record is shown: over the old record when a miss
  follows a hit, and over the new record when a hit follows a miss, where it
  survives a timer event (`NotFoundShownOverLaterHit`, `MissThenHit` in both
  detail modules).
- The booking screen keeps toast state but never renders it. It imports the
  toast component (app/book-appointment/index.tsx:14) and `showToast` sets the
  three fields (app/book-appointment/index.tsx:120-128), but the screen's
  markup from app/book-appointment/index.tsx:150 on contains no toast. The
  success and error toasts of `BookingScreen.HandleBookAppointment` and
  `BookingScreen.Submit` are therefore state only; the user never sees them.
- The institution-details screen defines `showToast` but never calls it
  (app/emergency-institution-details/index.tsx:59-67), so no hide step is ever
  scheduled there and that screen has no timer event.
- Adding a contact does not check the phone format, because that check is
  commented out (app/manage-emergency-contacts/index.tsx:95-100). Only the
  update checks it. `ContactsScreen.AddContact` therefore accepts any non-empty
  phone.
- A hospital change clears the date list while a doctor may still be selected
  (app/book-appointment/index.tsx:88-89). The list stays empty until the doctor
  changes. `BookingScreen.Change` models this, so the cascade invariant
  `Settled` states "dates non-empty only with a doctor", not "iff". The cascade
  never resets the selected form values either, so a doctor chosen under one
  hospital stays selected after the hospital changes.

## Left out

- Rendering, styling, icons and the presentational components: they show state and hold no behaviour.
- Navigation: only the booking handler's target route is recorded, as the field `route`. The routing library's parsing of path segments into the `id` parameter is not modelled. The detail screens receive the id as an optional string, where absent means the parameter is missing.
- Simulated delays and the three-second toast hide: every handler completes atomically, and the hide is the separate event `ToastTimerFires`. The window in which `loading` is true during a handler is therefore never observable.
- Several overlapping toast timers: the JavaScript screens can hold more than one pending hide. The model keeps a single "hide scheduled" flag, so an older timer cannot hide a newer toast early.
- Confirmation dialogs: the user's choice is the `confirmed` parameter.
- Controls that the rendering hides or disables are modelled as callable in every state:
  - the doctor, date and slot pickers are disabled while their option list is empty (app/book-appointment/index.tsx:205, 235, 265), yet `BookingScreen.Change` accepts any field at any time;
  - the list holding the cancel and reschedule buttons is hidden while loading (app/booked-appointments/index.tsx:213-224);
  - the download button exists only while a record is shown (app/patient-medical-history-details/index.tsx:75, 125).
- Disabled buttons:
  - The cancel button is disabled for cancelled appointments (app/booked-appointments/index.tsx:308). The model keeps the handler's own already-cancelled guard, which that button makes unreachable.
  - The booking button is disabled while loading. Between atomic handlers loading is always false, so this guard is left out.
- react-hook-form and Yup internals:
  - Only the schema's accept/reject result and one message per field are modelled, with the required message taking precedence over the format message.
  - Revalidation on every change after the first submit is left out; the error map is recomputed on submit only.
- The API call the booking handler's comment mentions: only navigation can fail, selected by the `navigationFails` parameter.
- Institution distances: floating-point values that are displayed only and never used in filtering.
- The sign-in, sign-up, password, profile, home and layout screens, and font loading: they are not part of this model.
- The medical-history list page: only its seed is modelled, as the source of the ids that link into the details screen.
- Id uniqueness for contacts is not an invariant of the screen. `DeleteThenAddRepeatsId` shows that it can fail. `SeedAddsDistinct` shows that it holds for runs of adds alone.
