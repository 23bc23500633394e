# Therapy scheduling core in Dafny

This project models three parts of a clinic's scheduling front end:

- **The appointment store** (`CalendarContext`). It holds the list of appointments, the Google Calendar connection flag, the last sync time, the sync status and the error text. Its operations create, update, delete and look up appointments, query them by day and by date range, and connect, disconnect and sync with the calendar integration.
- **The appointment dialog** (`AppointmentModal`). It resets the form when it opens. On submission it runs the ordered validation chain and recomputes the end time from the start time and the duration.
- **The mock authentication state** (`AuthContext`). It covers login, register and logout.

Layout:

- `wrappers.dfy`: `Option` and `Result`.
- `decimal.dfy`: the JavaScript text primitives the core relies on, restricted to digit strings. These are `Number#toString`, `padStart(2, '0')`, `Number(...)`, `parseInt` and `String#split`.
- `calendar.dfy`: the appointment record, the object-spread merge, the stable date sort, the filters and the store class `CalendarStore`.
- `appointment_form.dfy`: the form data, the reset, the validation, the end-time arithmetic and the dialog class `AppointmentModal`.
- `auth.dfy`: the user record, the mock login and register users, and the class `AuthStore`.

Conventions:

- **Dates and times** are integer millisecond timestamps in local wall-clock time. The calendar day of a timestamp is `t / 86400000`.
- **Clock readings** (`Date.now()`, `new Date()`) are a `now` parameter.
- **`Partial<Appointment>` and `Partial<User>`** are patch datatypes. `None` means the key is absent. For the optional fields, `Some(None)` means the key is present with the value `undefined`. Spreading a patch (`{...base, ...patch}`) therefore lets every present key win, including a falsy one.
- **Store methods** take the place of the React state setters. Each one states its whole new state. The stores' state changes are modelled one operation at a time.

Three behaviours of the code are worth noting:

- `updateAppointment` does not re-sort the list after a date change. `Calendar.UpdateMayBreakDateOrder` shows the resulting disorder.
- `deleteAppointment` of an unknown id does nothing and reports no error.
- The end-time computation neither rejects nor wraps a time past midnight. `AppointmentForm.EndTimeDoesNotWrap` shows "23:30" plus 50 minutes giving "24:20".

## Model

| member | source | states |
|---|---|---|
| Calendar.Merge | app/contexts/CalendarContext.tsx:222-226 | `{...base, ...partial}`: each field is the partial's value where its key is present, whatever that value, and the base's value where it is absent |
| Calendar.MergeNoChanges | app/contexts/CalendarContext.tsx:224 | spreading an empty partial leaves a record unchanged |
| Calendar.MergeAllFields | app/contexts/CalendarContext.tsx:195 | spreading a partial that carries all fields of a record yields exactly that record |
| Calendar.MergeIdempotent | app/contexts/CalendarContext.tsx:222-226 | spreading the same partial a second time changes nothing further |
| Calendar.FreshId | app/contexts/CalendarContext.tsx:179 | a generated id is `apt-` followed by the decimal digits of the clock reading |
| Calendar.CreateDefaults | app/contexts/CalendarContext.tsx:180-194 | the default record: generated id, 'patient-1', 'therapist-1', 'New Patient', 'Dr. Sarah Johnson', dated and created and updated now, 10:00-10:50, '50', in-person, scheduled, '' for location, notes and avatar, no event id |
| Calendar.FreshIdInjective | app/contexts/CalendarContext.tsx:179 | `apt-${Date.now()}` ids created at different times differ |
| Calendar.NewAppointment | app/contexts/CalendarContext.tsx:178-196 | a supplied field wins even when falsy; a missing field gets its default ('patient-1', 'therapist-1', 'New Patient', 'Dr. Sarah Johnson', now, '10:00', '10:50', '50', in-person, scheduled, '' for location, notes and avatar); createdAt and updatedAt default to now |
| Calendar.NewAppointmentInputWins | app/contexts/CalendarContext.tsx:178-196 | when every field is supplied the created record is exactly the input |
| Calendar.Filter | app/contexts/CalendarContext.tsx:259 | a record is in the filtered list iff it is in the list and passes the predicate |
| Calendar.FilterConcat | app/contexts/CalendarContext.tsx:388-396 | filtering distributes over concatenation, so relative order is kept |
| Calendar.FilterCount | app/contexts/CalendarContext.tsx:388-396 | filtering keeps every passing record as many times as it occurs and drops the others |
| Calendar.SortByDate | app/contexts/CalendarContext.tsx:198 | the sort is a permutation of its input |
| Calendar.SortByDateSorted | app/contexts/CalendarContext.tsx:198 | the sorted list is in non-decreasing date order |
| Calendar.SortByDateStable | app/contexts/CalendarContext.tsx:198 | the sort is stable: the records sharing a timestamp keep their relative order |
| Calendar.SortByDateOfSorted | app/contexts/CalendarContext.tsx:198 | sorting an already sorted list changes nothing |
| Calendar.CreateOrder | app/contexts/CalendarContext.tsx:198 | after a create the list is sorted and a permutation of the old list plus the new record; the new record comes after every older record with its timestamp, and the records at other timestamps keep their order |
| Calendar.CreateIntoSorted | app/contexts/CalendarContext.tsx:198 | creating into a sorted list equals inserting the record just before the first record dated later than it |
| Calendar.FindById | app/contexts/CalendarContext.tsx:268-270 | `find` returns nothing iff no record has the id, and otherwise the first record with it |
| Calendar.UpdateWhere | app/contexts/CalendarContext.tsx:222-226 | the update map keeps the list length |
| Calendar.UpdateWhereEffect | app/contexts/CalendarContext.tsx:222-226 | each record with the id becomes the merge with the partial, with updatedAt refreshed; every other record is unchanged |
| Calendar.UpdateWhereMissing | app/contexts/CalendarContext.tsx:222-229 | updating an id no record has leaves the list unchanged |
| Calendar.UpdateMayBreakDateOrder | app/contexts/CalendarContext.tsx:222-226 | an update that moves a date can leave a sorted list unsorted, because update does not re-sort |
| Calendar.MirrorGoogleId | app/contexts/CalendarContext.tsx:360-367 | mirroring keeps the list length |
| Calendar.MirrorGoogleIdEffect | app/contexts/CalendarContext.tsx:360-367 | records with the id get googleEventId `google-event-<id>` and nothing else changes; the other records are unchanged |
| Calendar.ClearGoogleIds | app/contexts/CalendarContext.tsx:313 | clearing keeps the list length |
| Calendar.ClearGoogleIdsEffect | app/contexts/CalendarContext.tsx:313 | every record loses its googleEventId and keeps all of its other fields |
| Calendar.RemoveId | app/contexts/CalendarContext.tsx:259 | the filtered list keeps exactly the records whose id differs, in order |
| Calendar.RemoveIdMissing | app/contexts/CalendarContext.tsx:259 | deleting an id no record has leaves the list unchanged |
| Calendar.FilterSorted | app/contexts/CalendarContext.tsx:259 | filtering a date-sorted list leaves it date-sorted |
| Calendar.RewritesKeepOrder | app/contexts/CalendarContext.tsx:259-367 | deleting, mirroring an event id and clearing event ids keep a date-sorted list sorted |
| Calendar.DayOf | app/contexts/CalendarContext.tsx:389 | the calendar day of a timestamp is the day whose first and last milliseconds enclose it |
| Calendar.ByDate | app/contexts/CalendarContext.tsx:387-391 | a record is returned iff it is in the list and falls on the same calendar day as the given date |
| Calendar.ByDateRange | app/contexts/CalendarContext.tsx:393-397 | a record is returned iff it is in the list and its date lies in the closed interval between the bounds |
| Calendar.ByDateIsDayRange | app/contexts/CalendarContext.tsx:387-397 | the day query equals the range query from the first to the last millisecond of that day |
| Calendar.QueriesPreserveOrder | app/contexts/CalendarContext.tsx:387-397 | both queries distribute over concatenation, and on a sorted store they return sorted lists |
| Calendar.CalendarStore.constructor | app/contexts/CalendarContext.tsx:66-71 | the store starts empty, disconnected, never synced, idle and without error |
| Calendar.CalendarStore.LoadAppointments | app/contexts/CalendarContext.tsx:81-97 | the list becomes the loaded records, the error is cleared and nothing else changes |
| Calendar.CalendarStore.CheckGoogleConnection | app/contexts/CalendarContext.tsx:157-168 | the flag becomes the stored one; the last sync time is restored only when connected and a stored time exists |
| Calendar.CalendarStore.SyncAppointmentWithGoogle | app/contexts/CalendarContext.tsx:352-371 | when disconnected nothing changes; otherwise the records with the id get their event id |
| Calendar.CalendarStore.CreateAppointment | app/contexts/CalendarContext.tsx:170-212 | returns the record built from the partial; the list becomes the stable sort of the old list plus that record (mirrored when connected), stays sorted and grows by one |
| Calendar.CalendarStore.UpdateAppointment | app/contexts/CalendarContext.tsx:214-243 | an unknown id fails with "Appointment not found", sets "Failed to update appointment" and changes no record; otherwise the records with the id are merged and refreshed (mirrored when connected), and the old record merged with the partial, without a refreshed updatedAt, is returned |
| Calendar.CalendarStore.DeleteAppointment | app/contexts/CalendarContext.tsx:245-266 | removes every record with the id, with no change for an unknown id; a remote deletion of the event id happens exactly when the record exists, the store is connected and the event id is non-empty |
| Calendar.CalendarStore.BeginSync | app/contexts/CalendarContext.tsx:322-326 | with the closure's flag false nothing happens; otherwise the status becomes syncing and the error is cleared |
| Calendar.CalendarStore.CompleteSync | app/contexts/CalendarContext.tsx:338-341 | the sync time becomes now and the status success |
| Calendar.CalendarStore.SyncWithFlag | app/contexts/CalendarContext.tsx:322-350 | the whole sync pass, with the flag its closure saw |
| Calendar.CalendarStore.SyncWithGoogle | app/contexts/CalendarContext.tsx:322-350 | when disconnected nothing changes; when connected the last sync time becomes now and the status success |
| Calendar.CalendarStore.ResetSyncStatus | app/contexts/CalendarContext.tsx:344 | the timer returns the status to idle and nothing else changes |
| Calendar.CalendarStore.ConnectGoogleAsWritten | app/contexts/CalendarContext.tsx:272-297 | the store ends up connected, but from the disconnected state the initial sync sees the old flag and leaves the sync time and status unchanged |
| Calendar.CalendarStore.ConnectGoogle | app/contexts/CalendarContext.tsx:272-297 | the corrected connect: connected, with one sync recorded at now with status success |
| Calendar.CalendarStore.DisconnectGoogle | app/contexts/CalendarContext.tsx:299-320 | disconnected, no last sync time, no error, and every record's event id cleared |
| Calendar.ConnectSkipsInitialSync | app/contexts/CalendarContext.tsx:287-290 | connecting a fresh store as written leaves it never synced and idle |
| Calendar.ConnectRunsInitialSync | app/contexts/CalendarContext.tsx:287-290 | connecting a fresh store with the corrected connect records a successful sync at now |
| Decimal.NatToString | app/components/calendar/AppointmentModal.tsx:132 | `toString()` of a non-negative integer is a non-empty digit string with no leading zero |
| Decimal.NatToStringRoundTrip | app/components/calendar/AppointmentModal.tsx:132 | reading the decimal text of n gives n back |
| Decimal.NatToStringInjective | app/contexts/CalendarContext.tsx:179 | different numbers have different decimal texts |
| Decimal.LeadingZeroIgnored | app/components/calendar/AppointmentModal.tsx:127 | a leading '0' does not change the value of a digit string |
| Decimal.PadStart2 | app/components/calendar/AppointmentModal.tsx:132 | `padStart(2, '0')` keeps a text of length at least 2 and left-pads a shorter one with zeros to length 2 |
| Decimal.PadStart2Value | app/components/calendar/AppointmentModal.tsx:132 | padding a digit string keeps it a digit string with the same value |
| Decimal.ToNumber | app/components/calendar/AppointmentModal.tsx:127 | `Number(s)` is finite exactly on digit strings (including ''), and then give their value; anything else is NaN |
| Decimal.ParseInt | app/components/calendar/AppointmentModal.tsx:129 | `parseInt(s)` is NaN iff s does not start with a decimal digit; a string of digits gives its value (no `0x` hexadecimal prefix, see Left out) |
| Decimal.ParseIntPrefix | app/components/calendar/AppointmentModal.tsx:129 | `parseInt` of leading digits followed by a non-digit is the value of those digits, so "50abc" gives 50 |
| Decimal.Split | app/components/calendar/AppointmentModal.tsx:127 | `split` yields at least one part and no part contains the separator |
| Decimal.SplitJoin | app/components/calendar/AppointmentModal.tsx:127 | joining the parts of a split with the separator gives the text back |
| Decimal.SplitPair | app/components/calendar/AppointmentModal.tsx:127 | splitting `a:b`, with neither part containing ':', gives exactly [a, b] |
| AppointmentForm.OrElse | app/components/calendar/AppointmentModal.tsx:77-86 | `x \|\| fallback`: a present non-empty value is kept, a missing or empty one falls back |
| AppointmentForm.ResetForm | app/components/calendar/AppointmentModal.tsx:74-104 | a new appointment gets today, 10:00-10:50, 50 minutes, in person, scheduled and empty names; editing copies each field, falling back to '' ('50' for the duration, in-person and scheduled for type and status) when it is missing or empty; the duration is never empty |
| AppointmentForm.Validate | app/components/calendar/AppointmentModal.tsx:112-123 | the form passes iff date, start and end are filled and the role's name is present; the first failed check's message (required fields, then patient name for non-patients, then therapist name for patients) is reported |
| AppointmentForm.Plus | app/components/calendar/AppointmentModal.tsx:129 | JavaScript `+` on numbers is NaN iff either operand is NaN, and otherwise the sum |
| AppointmentForm.StartMinutes | app/components/calendar/AppointmentModal.tsx:127-128 | the start time is a number iff it splits on ':' into at least two pieces whose first two are digit strings, and then it is hours * 60 + minutes |
| AppointmentForm.EndMinutes | app/components/calendar/AppointmentModal.tsx:126-129 | the end minutes are a number iff the start minutes and `parseInt(duration)` both are, and then they are their sum |
| AppointmentForm.FormatClock | app/components/calendar/AppointmentModal.tsx:130-132 | a formatted end time splits on ':' into exactly the two zero-padded pieces, digit strings worth the hours and the minutes below 60 |
| AppointmentForm.EndTimeFor | app/components/calendar/AppointmentModal.tsx:126-132 | the written end time is "NaN:NaN" exactly when the end minutes are NaN |
| AppointmentForm.FormatClockRoundTrip | app/components/calendar/AppointmentModal.tsx:127-132 | parsing a formatted end time with the start-time parser gives the total minutes back |
| AppointmentForm.EndTimeRoundTrip | app/components/calendar/AppointmentModal.tsx:126-132 | when the sum is a number, the written end time parses back to start minutes plus duration |
| AppointmentForm.StartMinutesOfWellFormed | app/components/calendar/AppointmentModal.tsx:127-128 | a start time `HH:MM` of digit strings is HH * 60 + MM minutes |
| AppointmentForm.EndMinutesOfWellFormed | app/components/calendar/AppointmentModal.tsx:127-129 | `HH:MM` with a digit duration D gives HH * 60 + MM + D minutes |
| AppointmentForm.DefaultEndTime | app/components/calendar/AppointmentModal.tsx:94-100 | the defaults 10:00 and 50 minutes give the end time 10:50 |
| AppointmentForm.EndTimeDoesNotWrap | app/components/calendar/AppointmentModal.tsx:126-132 | 23:30 plus 50 minutes is written as 24:20: there is no wrap at midnight |
| AppointmentForm.Submission | app/components/calendar/AppointmentModal.tsx:106-145 | a submission fails iff validation reports a message, and then with that message |
| AppointmentForm.SubmissionPayload | app/components/calendar/AppointmentModal.tsx:125-139 | a valid form is saved with the edited appointment's id; a non-empty duration overrides the end time, an empty one keeps it, and every other field passes through |
| AppointmentForm.SubmissionFailure | app/components/calendar/AppointmentModal.tsx:113-115 | a form missing a required field fails with "Please fill in all required fields" |
| AppointmentForm.NewFormSubmission | app/components/calendar/AppointmentModal.tsx:89-139 | the reset form of a new appointment, with names filled in, is saved unchanged with no id |
| AppointmentForm.AppointmentModal.constructor | app/components/calendar/AppointmentModal.tsx:58-104 | the dialog starts from the reset of its appointment with no error |
| AppointmentForm.AppointmentModal.Open | app/components/calendar/AppointmentModal.tsx:74-104 | opening resets the form for the given appointment and clears the error |
| AppointmentForm.AppointmentModal.HandleSubmit | app/components/calendar/AppointmentModal.tsx:106-145 | a failed check shows its message, saves nothing and leaves the form alone; otherwise the form is updated in place with the recomputed end time and handed to the save callback with the appointment's id, and the callback's error, if any, is shown |
| Auth.MockUser | app/contexts/AuthContext.tsx:58-89 | admin@clinic.com signs in as super admin '1', therapist@clinic.com as therapist '2', every other email as patient '3' with therapist '2'; always with that email, verified, created now |
| Auth.MockUserInjective | app/contexts/AuthContext.tsx:58-89 | logins at the same time give the same user iff the emails are equal |
| Auth.MergeUser | app/contexts/AuthContext.tsx:108-116 | `{...defaults, ...data}`: each field is the partial's value where its key is present and the default's where it is absent |
| Auth.NewUser | app/contexts/AuthContext.tsx:108-116 | the registered user has the given email and name; id, role, verification, creation time, therapist, avatar, phone and bio default to now, patient, false, now and none (the last four) unless supplied |
| Auth.NewUserInputWins | app/contexts/AuthContext.tsx:108-116 | when every field is supplied the registered user is exactly the input |
| Auth.AuthStore.constructor | app/contexts/AuthContext.tsx:29-32 | nobody is signed in and there is no error |
| Auth.AuthStore.Login | app/contexts/AuthContext.tsx:48-98 | the signed-in user becomes the mock user for the email and the error is cleared |
| Auth.AuthStore.Register | app/contexts/AuthContext.tsx:100-125 | the signed-in user becomes the registered user and the error is cleared |
| Auth.AuthStore.Logout | app/contexts/AuthContext.tsx:127-130 | nobody is signed in afterwards |

## Left out

- **The `loading` flags and the simulated delays.** The `setTimeout` promises carry no data. The sync-status reset timer is the separate step `ResetSyncStatus`.
- **`localStorage`.** The stored connection flag and sync time are parameters of `CheckGoogleConnection`. Writes to storage are not modelled.
- **`generateMockAppointments`.** It depends on `Math.random` and the clock. `LoadAppointments` takes the generated list as a parameter.
- **The Google Calendar API and `console` output.** `deleteGoogleCalendarEvent` appears only as the event id that `DeleteAppointment` returns for remote deletion.
- **The `catch` branches whose `try` blocks cannot throw in the mock.** These are create, delete, connect, disconnect, sync, load, login and register. Their error messages and the sync 'error' status are therefore not modelled. The update branch can throw, and it is modelled.
- **Interleaving of concurrent async operations.** Operations are modelled one at a time, so a closure's copy of the state equals the current state. The one exception is the stale connection flag in `connectGoogle`, listed under Findings.
- **Time zones, daylight saving and `Date` parsing and formatting.** The form keeps the date as its `yyyy-MM-dd` text and does not model `new Date(formData.date)` in the payload. `toDateString` is modelled as equal day numbers.
- **An explicitly `undefined` value for the id or for any field the record requires.** The patch datatypes cannot express it, and in the source such a key overrides the default with `undefined`. The dialog always saves an `id` key (`id: appointment?.id`, app/components/calendar/AppointmentModal.tsx:138). For a new appointment that key holds `undefined`, so a record created directly from that payload would get the id `undefined` instead of a generated one. The model's `Payload` keeps that id as `None`, and `CreateAppointment` treats a patch without an id as generating `apt-<now>`. That generated-id path is one the dialog's payload never takes.
- **Decimal.ToNumber: only digit strings are modelled.** `Number()` also accepts surrounding whitespace, signs, decimals and hexadecimal forms. The model maps all of these to NaN.
- **Decimal.ParseInt: leading whitespace, signs and the `0x`/`0X` hexadecimal prefix are not modelled.** `parseInt` with no radix reads `"0x32"` as 50 and `"0x"` as NaN; the model reads both as 0. It is applied only to the form's duration, which the dialog's select lets the user set only to 30, 45, 50, 60 or 90 (app/components/calendar/AppointmentModal.tsx:268-282).
- **Decimal.NatToString: the exponent form `toString` uses from 1e21 upward is not modelled.**
- **Auth.NewUser: requires email and name to be present.** The source writes `data.email!` and `data.name!`. TypeScript's `!` is erased at runtime and checks nothing, so a registration without them builds a user whose email or name is `undefined`. The model does not cover that case.
- **Auth.AuthStore.Register: requires email and name to be present, as `Auth.NewUser` does.**
- **Restoring a session in `AuthContext` and the `useAuth` and `useCalendar` guards.** This is the React plumbing around the stores.
- **The dialog's delete handler, its rendering and the rest of the UI.**

## Findings

| source | as written | input that shows it | evidently intended | confidence | as-written member | corrected member |
|---|---|---|---|---|---|---|
| app/contexts/CalendarContext.tsx:287-290 | `connectGoogle` calls the `syncWithGoogle` captured in the same render as itself. That closure still holds `isGoogleConnected === false`, so the "initial sync" returns at line 323 without doing anything. | `connectGoogle()` on a disconnected store: afterwards `lastSyncTime` is still null and `syncStatus` is still 'idle' | the initial sync runs once the store is connected, setting `lastSyncTime` to now and `syncStatus` to 'success' | high, not executed | Calendar.CalendarStore.ConnectGoogleAsWritten, Calendar.ConnectSkipsInitialSync | Calendar.CalendarStore.ConnectGoogle, Calendar.ConnectRunsInitialSync |
