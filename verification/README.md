# DentalCare AI clinic app: a Dafny model of its core rules

DentalCare AI is a dental-clinic web application. Patients book
appointments, describe symptoms, upload images, keep a medical history, chat
and leave reviews. Dentists confirm appointments and review AI treatment
recommendations. Administrators manage roles, the waitlist, prescriptions and
analytics. A scheduled backend function turns due appointment reminders into
in-app notifications.

Every persistent change in the application is a single table call or RPC on
the hosted backend. This project models:

- each table the core reads or writes, as an in-memory sequence (or map) of
  rows;
- each backend call as an input saying whether it succeeded;
- the rules the application applies around those calls.

One Dafny module per source file holds the rules as functions, with lemmas
stating what the application promises. Where the source keeps component
state and updates it step by step, a class holds that state, and its
methods are specified against those functions.

Shared modules:

- `Wrappers` holds `Option`.
- `Strings` holds the JavaScript string operations used: `trim`,
  `toLowerCase`, `includes`, `startsWith`, `split`, `padStart`, `Number`,
  `toString`, `slice` plus `...`, and `x || null`.
- `Queries` holds `filter`, counting, `slice(0, n)` and the backend's
  `order(...)`, proved to be a sorted permutation.
- `Entities` holds the shared rows and enums.

Modelling conventions:

- Timestamps and dates are integers (minutes).
- Locale date formatting is a function parameter.
- A query that returns an error is `None`, or `ok == false` for a write.
- The reminder dispatcher separates a call that returns an error from one
  that throws, because the two behave differently there.

## Model

| member | source | states |
|---|---|---|
| ReminderDispatch.ReminderStore.ProcessReminders | supabase/functions/process-reminders/index.ts:22-124 | The loop leaves the tables and the response exactly as the dispatch specification says. A failed reminder query answers 500. A run with no due reminder answers count 0. Both change neither table. |
| ReminderDispatch.ReminderStore.ProcessOne | supabase/functions/process-reminders/index.ts:56-101 | One pass of the loop body changes the two tables and the processed list exactly as one step of the dispatch does. The notification insert is attempted when the profile lookup did not throw and the appointment is present. Its row is added only when the insert succeeds. The reminder is marked sent and listed when, in addition, the insert did not throw and the update succeeded. |
| ReminderDispatch.NotificationAddressing | supabase/functions/process-reminders/index.ts:71-79 | The notification goes to the reminder's patient with type `reminder`. The title names 24 hours exactly for `24h_before` reminders and 1 hour for every other type. |
| ReminderDispatch.MessageMentions | supabase/functions/process-reminders/index.ts:77 | The message contains the formatted appointment date and the appointment time. |
| ReminderDispatch.MessageEnding | supabase/functions/process-reminders/index.ts:77 | The message ends with `Reason: <reason>` when the reason is non-empty, and with the date sentence's `". "` otherwise. |
| ReminderDispatch.RunProcessed | supabase/functions/process-reminders/index.ts:56-102 | The processed list grows, in order, by the ids of exactly the reminders whose `sent` update succeeded. |
| ReminderDispatch.RunReminders | supabase/functions/process-reminders/index.ts:87-98 | After the loop, exactly the rows named by a successful update are marked sent. |
| ReminderDispatch.RunNotifications | supabase/functions/process-reminders/index.ts:70-85 | One notification row is appended, in order, for each reminder whose insert succeeded. |
| ReminderDispatch.ProcessedAreMarkedDueInOrder | supabase/functions/process-reminders/index.ts:93-108 | The response lists, in fetch order, the ids of the due reminders whose update succeeded. `count` is their number. |
| ReminderDispatch.SentExactlyProcessed | supabase/functions/process-reminders/index.ts:87-98 | No row is added or removed. A row ends up sent exactly when it was sent before or its id was processed. No other column changes. |
| ReminderDispatch.NonCandidatesUntouched | supabase/functions/process-reminders/index.ts:36-91 | With unique ids, an already-sent or future reminder is left exactly as it was. |
| ReminderDispatch.NotificationsAppended | supabase/functions/process-reminders/index.ts:70-85 | The notifications table only grows, by one row per due reminder whose insert succeeded. |
| ReminderDispatch.NoReprocessing | supabase/functions/process-reminders/index.ts:36-91 | A reminder reported as processed is never selected by a later run. |
| ReminderDispatch.MarkedWithoutNotification | supabase/functions/process-reminders/index.ts:81-98 | An insert that returns an error, followed by a successful update, still marks the reminder sent and reports it processed, although no notification exists. |
| ReminderDispatch.FailureIsIsolated | supabase/functions/process-reminders/index.ts:56-101 | A reminder whose processing throws (missing appointment, profile lookup or insert throws) has no effect. The rest of the run is as if it were absent. |
| Dashboard.PrimaryRole | src/pages/Dashboard.tsx:57-70 | The primary role is the first of admin, dentist, manager, nurse, receptionist, patient held by the user. It is null exactly when none is held. |
| Dashboard.PrimaryRoleByMembership | src/pages/Dashboard.tsx:54-70 | The choice depends only on which roles occur, not on row order or repetition. |
| Dashboard.DentistOverPatient | src/pages/Dashboard.tsx:58-61 | Any role list holding dentist and not admin gives `dentist`, whatever else it holds, and the dentist dashboard renders. |
| Dashboard.Rendered | src/pages/Dashboard.tsx:106-108 | At most one dashboard renders. Admin gives the admin dashboard and dentist the dentist dashboard. Patient, receptionist, nurse and manager give the patient dashboard. |
| Dashboard.RoutingByRoles | src/pages/Dashboard.tsx:57-108 | Exactly one dashboard renders iff a known role is held. It is the admin dashboard iff admin is held, and the dentist dashboard iff dentist is held without admin. |
| Dashboard.DashboardPage.FetchUserRole | src/pages/Dashboard.tsx:45-77 | The roles are replaced by the fetched ones. The primary role changes only when a known role is found. A query error keeps both. Loading always ends. |
| Dashboard.DashboardPage.CheckUser | src/pages/Dashboard.tsx:33-43 | Without a session the page goes to `/auth` and makes no role query. Otherwise it records the user and fetches the roles. |
| Dashboard.DashboardPage.Shown | src/pages/Dashboard.tsx:84-108 | While loading only the spinner shows. Once loaded, the page shows the dashboard `Rendered` routes the primary role to: the admin view, the dentist view, or the patient view for patient, manager, nurse and receptionist, and none when no role was chosen. At most one dashboard shows. |
| Admin.Decide | src/pages/Admin.tsx:36-65 | Access is granted iff a signed-in user has an admin row, and exactly then there is no redirect. No user goes to `/auth`. A missing row, a query error or a throw goes to `/dashboard`. The row is looked up only for a signed-in user. |
| Admin.Render | src/pages/Admin.tsx:67-80 | The spinner shows iff loading. The admin content shows iff not loading and the user is admin. |
| Admin.AdminPage.CheckAdminAccess | src/pages/Admin.tsx:36-65 | Loading ends. `isAdmin` is set only on a grant. The location follows the decision. The user id is recorded only for a signed-in user. |
| Admin.GateFromFreshPage | src/pages/Admin.tsx:36-80 | From a fresh page, the admin content is reached iff a signed-in user has an admin row. Otherwise the page redirects. |
| RoleManagement.RoleIndex | src/components/admin/RoleManagement.tsx:165 | Each role has a position in the fixed list of six roles. |
| RoleManagement.AvailableRoles | src/components/admin/RoleManagement.tsx:164-167 | A role is available iff it is not held. |
| RoleManagement.AvailablePartition | src/components/admin/RoleManagement.tsx:164-167 | Held and available roles are disjoint and together cover all six. The add control is present iff some role is not held. |
| RoleManagement.AvailableInOrder | src/components/admin/RoleManagement.tsx:165-166 | Available roles keep the fixed order, each once. |
| RoleManagement.RolesOf | src/components/admin/RoleManagement.tsx:77-79 | A user's roles are exactly those of the role rows carrying the user's id. The list is empty iff no row names the user. |
| RoleManagement.JoinRoles | src/components/admin/RoleManagement.tsx:73-80 | There is one entry per profile, in profile order, with the profile's fields and exactly its roles. |
| RoleManagement.RoleManager.FetchUsersWithRoles | src/components/admin/RoleManagement.tsx:53-93 | The list is replaced by the join only when both queries succeed. Loading ends either way. |
| RoleManagement.RoleManager.Select | src/components/admin/RoleManagement.tsx:251-253 | Choosing a role sets only that user's selection. |
| RoleManagement.RoleManager.AddRole | src/components/admin/RoleManagement.tsx:95-136 | Without a selection no RPC is made. Otherwise the selected role is assigned. Only on success is that user's selection removed (others kept) and the list refetched. |
| RoleManagement.RoleManager.RemoveRole | src/components/admin/RoleManagement.tsx:138-162 | The removal is requested, and the selection is kept. Only on success is the list refetched. |
| NotificationPanel.UnreadCount | src/components/dashboard/NotificationPanel.tsx:108 | The count is the number of items whose read flag is false. It is at most the list length, and zero iff every item is read. |
| NotificationPanel.ShowsUnreadControls | src/components/dashboard/NotificationPanel.tsx:117-124 | The badge and mark-all button show iff some item is unread. |
| NotificationPanel.UnreadIds | src/components/dashboard/NotificationPanel.tsx:91 | Mark-all sends exactly the ids of the unread items. |
| NotificationPanel.MarkReadOnlyThatItem | src/components/dashboard/NotificationPanel.tsx:80-82 | Marking one item read sets the read flag of the items with that id. Every other item and field is unchanged. |
| NotificationPanel.MarkReadCount | src/components/dashboard/NotificationPanel.tsx:80-82 | The unread count drops by the number of unread items with that id. |
| NotificationPanel.MarkAllClearsUnread | src/components/dashboard/NotificationPanel.tsx:100 | After mark-all nothing is unread and the unread controls disappear. Other fields are unchanged. |
| NotificationPanel.Latest | src/components/dashboard/NotificationPanel.tsx:54-59 | The list holds only the user's notifications, newest first, and exactly min(10, n) of them for a user with n. |
| NotificationPanel.LatestAreNewest | src/components/dashboard/NotificationPanel.tsx:56-59 | The list is the head, of length min(10, n), of the user's n notifications ordered newest first. No listed item is older than an unlisted one, and a user with at most ten sees them all. |
| NotificationPanel.Panel.FetchNotifications | src/components/dashboard/NotificationPanel.tsx:52-69 | The list becomes the latest ten. An error keeps it. Loading ends. |
| NotificationPanel.Panel.MarkAsRead | src/components/dashboard/NotificationPanel.tsx:71-87 | The update is requested. The local list changes, as `MarkRead` says, only on success. |
| NotificationPanel.Panel.MarkAllAsRead | src/components/dashboard/NotificationPanel.tsx:89-106 | The unread ids are sent. On success every item is read and the count is 0. On error the list is unchanged. |
| NotificationPanel.Panel.OnInsert | src/components/dashboard/NotificationPanel.tsx:29-45 | A new notification of the user is put in front of the list. |
| NotificationPanel.PrependCount | src/components/dashboard/NotificationPanel.tsx:41 | A prepended item adds one to the unread count iff it is unread, and the rest keep their order. |
| Validation.TrimmedWithin | src/lib/validation.ts:5-8 | A required field is accepted iff its trimmed length is within bounds. The accepted value is the trimmed text. |
| Validation.OptionalWithin | src/lib/validation.ts:13-16 | An optional field is accepted when absent, or when its trimmed length is within the bound. A present field yields its trimmed text. |
| Validation.TrimmedWithinIdempotent | src/lib/validation.ts:5-8 | An accepted field parses again to itself. |
| Validation.OptionalWithinIdempotent | src/lib/validation.ts:13-16 | An accepted optional field parses again to itself. |
| Validation.ParseSignUp | src/lib/validation.ts:4-20 | Accepted iff all of these hold: the name trims to 2..100; the email trims to a valid address of at most 255; the phone is absent or trims to at most 20; the password, untrimmed, has 6..128 characters. The result holds the trimmed texts and the password as typed. |
| Validation.ParseSignIn | src/lib/validation.ts:22-30 | Accepted iff the email trims to a valid address of at most 255 and the password has 1..128 characters. The result holds the trimmed email and the password as typed. |
| Validation.ParseBooking | src/lib/validation.ts:33-44 | Accepted iff the reason is absent or trims to at most 500, the time trims to non-empty text, and a date is given. The result holds the trimmed time, the date, and the reason trimmed or absent as it was given. |
| Validation.ParseSymptoms | src/lib/validation.ts:47-52 | Accepted iff the trimmed text has 10..2000 characters. The result is the trimmed text. |
| Validation.ParseTreatmentUpdate | src/lib/validation.ts:55-60 | Notes are accepted iff absent or trimmed to at most 2000 characters, and are kept trimmed. |
| Validation.ParseAppointmentNotes | src/lib/validation.ts:63-68 | Notes are accepted iff absent or trimmed to at most 1000 characters, and are kept trimmed. |
| Validation.PaddingIgnored | src/lib/validation.ts:5-8 | Any whitespace added before or after a field leaves its parse unchanged: the same acceptance and the same value. |
| Validation.SignInIdempotent | src/lib/validation.ts:22-30 | An accepted sign-in form parses again to itself. |
| Validation.BookingIdempotent | src/lib/validation.ts:33-44 | An accepted booking parses again to itself. |
| Validation.SymptomsIdempotent | src/lib/validation.ts:47-52 | Accepted symptoms parse again to themselves. |
| Validation.PasswordNotTrimmed | src/lib/validation.ts:5-19 | In an otherwise acceptable sign-up form, a password is accepted iff it has 6..128 characters as typed, so six spaces are accepted. |
| Validation.PaddedLetterRejected | src/lib/validation.ts:5-8 | A sign-up name of one letter between spaces is rejected, whatever the other fields hold. |
| Calendar.DayStart | src/components/calendar/AppointmentCalendar.tsx:40 | `setHours` counts from the start of the instant's day: a multiple of a day, at most the instant and less than a day before it. |
| Calendar.Clock | src/components/calendar/AppointmentCalendar.tsx:59 | Hours are below 24 and minutes below 60, and together with the day start they recompose the instant. |
| Calendar.SetHours | src/components/calendar/AppointmentCalendar.tsx:41 | The result is a valid instant iff the date and both arguments are numbers. |
| Calendar.ParseIgnoresRest | src/components/calendar/AppointmentCalendar.tsx:39 | Pieces after the minutes do not change the parse. `"h:m"` reads as the numbers of h and m. |
| Calendar.HourOnlyIsInvalid | src/components/calendar/AppointmentCalendar.tsx:39-41 | A time without `:` gives an invalid start. |
| Calendar.OneHourEvents | src/components/calendar/AppointmentCalendar.tsx:39-43 | For a time within the day, start and end are valid together, and the end is exactly one hour after the start. |
| Calendar.NextDayHoursLastLonger | src/components/calendar/AppointmentCalendar.tsx:40-43 | Hours from 24 to 47 start on the next day and end 25 hours later, so the one-hour rule needs a time within the day. |
| Calendar.FormatTime | src/components/calendar/AppointmentCalendar.tsx:59 | The written time is five characters with `:` in the middle and nowhere else. |
| Calendar.FormatTimeDigits | src/components/calendar/AppointmentCalendar.tsx:59 | The written time is the tens and units digits of the hour, `:`, then the tens and units digits of the minute. |
| Calendar.TimeRoundTrip | src/components/calendar/AppointmentCalendar.tsx:39-59 | Parsing a formatted `HH:MM` gives back its hours and minutes. |
| Calendar.DropThenReload | src/components/calendar/AppointmentCalendar.tsx:38-67 | With one time zone for the written date and the reload, a dropped event written back as its day and formatted time and reloaded starts at the dropped instant and ends one hour later. |
| Calendar.StartOfParsed | src/components/calendar/AppointmentCalendar.tsx:39-41 | The start is the appointment's day plus the parsed hours and minutes. |
| Calendar.EndOfParsed | src/components/calendar/AppointmentCalendar.tsx:42-43 | The end is the start plus 60 minutes for a time within the day. |
| Calendar.EventTitle | src/components/calendar/AppointmentCalendar.tsx:47 | The title is the reason, or `Appointment` when there is none or it is empty. |
| Calendar.ToEvents | src/components/calendar/AppointmentCalendar.tsx:38-52 | There is one event per row, in row order. Each event has the row's id, the title the reason gives, and the start and end read from the row's date and time. |
| Calendar.AppointmentCalendar.FetchAppointments | src/components/calendar/AppointmentCalendar.tsx:28-55 | Events are rebuilt from the rows. A query error keeps them. |
| Calendar.AppointmentCalendar.HandleEventDrop | src/components/calendar/AppointmentCalendar.tsx:57-81 | The dropped instant's date and zero-padded time are written. Only a successful write refetches. |
| ImageUpload.CheckFile | src/components/medical/ImageUpload.tsx:26-35 | A file is accepted iff its type starts with `image/` and it has at most 5 MiB. A non-image is reported before size. |
| ImageUpload.SizeBoundInclusive | src/components/medical/ImageUpload.tsx:32 | Exactly 5 MiB is accepted. One byte more is too large. |
| ImageUpload.Extension | src/components/medical/ImageUpload.tsx:64 | The extension is the suffix after the last `.`, or the whole name when there is no `.`. |
| ImageUpload.PathLayout | src/components/medical/ImageUpload.tsx:64-66 | The stored path splits into the user id, the user id again and `<time>.<ext>`. Its extension is the file's. |
| ImageUpload.LastPieceAfter | src/components/medical/ImageUpload.tsx:64 | The text after a last separator is what `split(...).pop()` returns. |
| ImageUpload.Metadata | src/components/medical/ImageUpload.tsx:75-84 | The row carries the user, path, name and type. The appointment id is null when absent or empty. The description is null when empty. |
| ImageUpload.Uploader.HandleFileChange | src/components/medical/ImageUpload.tsx:22-46 | Only an accepted file replaces the held one. A rejected or absent one changes nothing. |
| ImageUpload.Uploader.PreviewLoaded | src/components/medical/ImageUpload.tsx:41-43 | The reader's result becomes the preview. |
| ImageUpload.Uploader.ClearFile | src/components/medical/ImageUpload.tsx:101-104 | The file and preview are cleared. |
| ImageUpload.Uploader.HandleUpload | src/components/medical/ImageUpload.tsx:48-99 | Without a file or a user nothing is called. The metadata is inserted only after the file is stored. Only when both succeed are file, preview and description reset and completion signalled. |
| PatientDashboard.PatientAppointments | src/components/dashboard/PatientDashboard.tsx:28-32 | The list holds exactly the patient's appointments, latest date first. |
| PatientDashboard.PatientTreatments | src/components/dashboard/PatientDashboard.tsx:33-37 | The list holds exactly the patient's treatments, newest first. |
| PatientDashboard.Upcoming | src/components/dashboard/PatientDashboard.tsx:60-62 | An appointment is upcoming iff it is confirmed and dated now or later. |
| PatientDashboard.HasReview | src/components/dashboard/PatientDashboard.tsx:67 | True iff some review names the appointment. |
| PatientDashboard.UnreviewedCompleted | src/components/dashboard/PatientDashboard.tsx:64-68 | At most one appointment: the first completed one without a review. The list is empty iff every completed appointment has one. |
| PatientDashboard.ReviewPrompt | src/components/dashboard/PatientDashboard.tsx:98-113 | The prompt shows iff some completed appointment has no review, and then such an appointment exists in the list. |
| PatientDashboard.PromptMovesOn | src/components/dashboard/PatientDashboard.tsx:110-113 | Once the prompted appointment is reviewed, the prompt disappears or moves to another appointment. |
| PatientDashboard.ShownAppointments | src/components/dashboard/PatientDashboard.tsx:162 | At most the first five appointments are listed, all of them when there are at most five. |
| PatientDashboard.ShownTreatments | src/components/dashboard/PatientDashboard.tsx:201 | At most the first three treatments are listed, all of them when there are at most three. |
| PatientDashboard.ShownAreLatest | src/components/dashboard/PatientDashboard.tsx:162 | No listed appointment is dated before one left out. |
| PatientDashboard.Dashboard.FetchData | src/components/dashboard/PatientDashboard.tsx:25-58 | All three lists are replaced together. Any query error keeps all three. Loading ends. |
| Strings.Preview | src/components/dashboard/PatientDashboard.tsx:206 | The preview is at most n leading characters of the text, followed by `...`. |
| DentistDashboard.PendingAppointments | src/components/dashboard/DentistDashboard.tsx:115-116 | The pending panel holds exactly the pending appointments. |
| DentistDashboard.RecommendationList | src/components/dashboard/DentistDashboard.tsx:164-166 | The list is the first min(5, n) of the n treatments awaiting review, in list order, so all of them when there are at most five. |
| DentistDashboard.StatusButtons | src/components/dashboard/DentistDashboard.tsx:116-145 | Every pending appointment gets Confirm and Cancel. No other appointment gets a button. Buttons write only `confirmed` or `cancelled`. |
| DentistDashboard.UpdatePayload | src/components/dashboard/DentistDashboard.tsx:70-74 | The notes are always written. The final treatment is null iff the status is approved, and is the notes otherwise. |
| DentistDashboard.SetAppointmentStatus | src/components/dashboard/DentistDashboard.tsx:52-55 | Only the rows with that id get the new status. |
| DentistDashboard.ApplyTreatmentUpdate | src/components/dashboard/DentistDashboard.tsx:68-75 | Only the rows with that id get the payload's status, notes and final treatment. |
| DentistDashboard.DecidedLeavesPending | src/components/dashboard/DentistDashboard.tsx:50-64 | Confirming or cancelling removes that appointment from the pending panel and keeps every other pending one. |
| DentistDashboard.ReviewedLeavesRecommendations | src/components/dashboard/DentistDashboard.tsx:66-86 | A reviewed recommendation leaves the panel. Its row carries the notes, and a final treatment iff not approved. |
| DentistDashboard.Dashboard.FetchData | src/components/dashboard/DentistDashboard.tsx:24-48 | Appointments are set by date ascending and treatments newest first. Either error keeps both. Loading ends. |
| DentistDashboard.Dashboard.UpdateAppointmentStatus | src/components/dashboard/DentistDashboard.tsx:50-64 | The status write is issued. Only on success is the data refetched. |
| DentistDashboard.Dashboard.UpdateTreatment | src/components/dashboard/DentistDashboard.tsx:66-86 | The payload is built from the current notes. Success closes the editor, empties the notes and refetches. Failure keeps everything. |
| DentistDashboard.Dashboard.Modify | src/components/dashboard/DentistDashboard.tsx:215-218 | The editor opens on the treatment, pre-filled with its AI recommendation. |
| DentistDashboard.Dashboard.CancelEdit | src/components/dashboard/DentistDashboard.tsx:197 | The editor closes. |
| AdminDashboard.ComputeStats | src/components/dashboard/AdminDashboard.tsx:40-45 | The totals are the list sizes. Pending is the number of appointments whose status is pending, so it is at most the appointment total. It is zero iff no appointment is pending, and equals the total iff all are pending. |
| AdminDashboard.PromoteRequest | src/components/dashboard/AdminDashboard.tsx:87-91 | The RPC is requested iff the email is non-empty, and with that email. |
| AdminDashboard.Dashboard.FetchData | src/components/dashboard/AdminDashboard.tsx:28-52 | The stats are computed from the three lists. Any error keeps them. Loading ends. |
| AdminDashboard.Dashboard.Submit | src/components/dashboard/AdminDashboard.tsx:54-64 | An empty email does nothing. Otherwise the promotion is requested and the field cleared. A failed RPC keeps stats and loading. A successful RPC refetches: the stats are recomputed when all three queries succeed and kept when any fails, and loading ends. |
| Analytics.CountOrZero | src/components/analytics/AnalyticsDashboard.tsx:62-69 | A null result counts 0. Otherwise the count is the number of occurrences of the value in the result, at most its length. |
| Analytics.ComputeMetrics | src/components/analytics/AnalyticsDashboard.tsx:60-70 | Each counter is the number of rows with its status (pending, completed, active, waiting), or 0 for a null result. The total is the row count. Pending plus completed is at most the total. |
| Analytics.OnlyWaitingCounted | src/components/analytics/AnalyticsDashboard.tsx:69 | A waitlist entry that is not waiting does not change the waitlist count. |
| Analytics.AnalyticsPage.FetchAnalytics | src/components/analytics/AnalyticsDashboard.tsx:33-80 | All counters are assigned at once from the fetched data. Loading ends. |
| SymptomChecker.Recommendation | src/pages/SymptomChecker.tsx:32-44 | The answer is the advice for the classified finding (sensitivity, gingivitis or general) followed by the preliminary-assessment disclaimer, so every answer ends with that disclaimer. |
| SymptomChecker.CaseIgnored | src/pages/SymptomChecker.tsx:33 | Letter case never changes the answer. |
| SymptomChecker.PainWins | src/pages/SymptomChecker.tsx:35-37 | Text containing `pain` in any case gets the sensitivity answer, whatever else it mentions. |
| SymptomChecker.GumsWithoutPain | src/pages/SymptomChecker.tsx:39-41 | Without `pain` or `ache`, a mention of `gum` gets the gingivitis answer. |
| SymptomChecker.BleedWithoutPain | src/pages/SymptomChecker.tsx:39-41 | Without `pain` or `ache`, a mention of `bleed` in any case gets the gingivitis answer. |
| SymptomChecker.NoKeywordIsGeneral | src/pages/SymptomChecker.tsx:33-44 | The general answer comes exactly when none of `pain`, `ache`, `bleed` and `gum` occurs in the lower-cased text. |
| SymptomChecker.Analyzable | src/pages/SymptomChecker.tsx:16 | Analysis starts iff the description is not blank. |
| SymptomChecker.ShortDescriptionAnalyzed | src/pages/SymptomChecker.tsx:16-19 | A four-letter description that the symptom schema rejects is still analysed here. |
| SymptomChecker.AcheWins | src/pages/SymptomChecker.tsx:35-37 | Text containing `ache` in any case gets the sensitivity answer, whatever else it mentions. |
| SymptomChecker.Page.HandleAnalyze | src/pages/SymptomChecker.tsx:15-30 | A blank description starts nothing. Otherwise analysing starts for the current text. |
| SymptomChecker.Page.TimerFires | src/pages/SymptomChecker.tsx:24-29 | The oldest pending analysis shows its text's recommendation and analysing ends. |
| Booking.ReasonOptional | src/pages/Booking.tsx:25 | The reason never decides acceptance. |
| Booking.Disabled | src/pages/Booking.tsx:137 | A day is disabled iff it is before now. |
| Booking.Page.constructor | src/pages/Booking.tsx:13-20 | The form starts empty, with today selected and nothing confirmed. |
| Booking.Page.SetText | src/pages/Booking.tsx:70-124 | Typing changes only the text fields and keeps the chosen time. |
| Booking.Page.SelectTime | src/pages/Booking.tsx:103-113 | The time is cleared by the placeholder option or set to a slot. The time is always empty or a slot. |
| Booking.Page.SelectDate | src/pages/Booking.tsx:135-137 | A disabled day cannot be picked. Any other choice, including clearing, is taken. |
| Booking.Page.HandleSubmit | src/pages/Booking.tsx:22-40 | An incomplete form is kept. A complete one is confirmed and reset with no date, so it is not complete afterwards. |
| ReviewForm.InitialRating | src/components/reviews/ReviewForm.tsx:25 | The rating starts at the existing review's rating, or 0. |
| ReviewForm.InitialText | src/components/reviews/ReviewForm.tsx:27 | The text starts at the existing review's text, or empty. |
| ReviewForm.ReviewRow | src/components/reviews/ReviewForm.tsx:45-51 | The row carries the appointment, patient and rating. The dentist is null iff absent or empty, and otherwise kept. The review text is null iff the typed text is empty, and otherwise is the typed text. |
| ReviewForm.UpdateReview | src/components/reviews/ReviewForm.tsx:53-58 | Only the patient's rows for the appointment are replaced by the new row. |
| ReviewForm.InsertAddsRow | src/components/reviews/ReviewForm.tsx:59-61 | A first review adds exactly its row. |
| ReviewForm.UpdateReplacesOwnRow | src/components/reviews/ReviewForm.tsx:53-58 | An update replaces the patient's rows for the appointment and keeps the rest. With no such row it changes nothing. |
| ReviewForm.StarFilled | src/components/reviews/ReviewForm.tsx:96 | Star k is filled iff k is at most the hovered star, or at most the rating when none is hovered. |
| ReviewForm.SubmitDisabled | src/components/reviews/ReviewForm.tsx:124 | Submit is enabled iff not submitting and a star is chosen. |
| ReviewForm.Form.constructor | src/components/reviews/ReviewForm.tsx:25-28 | The form starts from the existing review, with nothing hovered and not submitting. |
| ReviewForm.Form.Rate | src/components/reviews/ReviewForm.tsx:89 | Clicking star k sets the rating to k. |
| ReviewForm.Form.Hover | src/components/reviews/ReviewForm.tsx:90-91 | Entering star k hovers it; leaving the stars resets the hover to 0. |
| ReviewForm.Form.HandleSubmit | src/components/reviews/ReviewForm.tsx:30-73 | A zero rating is refused before any call. Without a user or on error nothing is saved. Otherwise the row is updated or inserted and the callback runs. |
| Waitlist.ProfileFor | src/components/waitlist/WaitlistManager.tsx:43-51 | An entry gets its patient's profile, or `Unknown` with an empty email. |
| Waitlist.Enrich | src/components/waitlist/WaitlistManager.tsx:41-54 | There is one result per entry, in order, each with its profile. |
| Waitlist.Listing | src/components/waitlist/WaitlistManager.tsx:33-54 | The listing holds the table's entries with their multiplicities, newest first. |
| Waitlist.DisplayName | src/components/waitlist/WaitlistManager.tsx:102 | The title is the name, or `Unknown Patient` when it is empty. |
| Waitlist.PriorityBadge | src/components/waitlist/WaitlistManager.tsx:107-114 | `urgent` gives destructive, `high` gives default, anything else gives secondary. |
| Waitlist.Actions | src/components/waitlist/WaitlistManager.tsx:136-155 | Buttons exist iff the entry is waiting. None of them writes `waiting`. |
| Waitlist.SetStatus | src/components/waitlist/WaitlistManager.tsx:70-73 | Only the entries with that id get the new status. |
| Waitlist.ActionIsFinal | src/components/waitlist/WaitlistManager.tsx:136-155 | After any action the entry offers no more buttons. Every other entry keeps its own. |
| Waitlist.Manager.FetchWaitlist | src/components/waitlist/WaitlistManager.tsx:31-66 | The list becomes the enriched listing. An error keeps it. Loading ends. |
| Waitlist.Manager.UpdateStatus | src/components/waitlist/WaitlistManager.tsx:68-90 | The write is issued. Only on success is the list refetched. |
| Prescriptions.Query | src/components/prescriptions/PrescriptionList.tsx:33-40 | Rows are filtered by patient only when a non-empty patient id is given, newest first. |
| Prescriptions.UnfilteredListsAll | src/components/prescriptions/PrescriptionList.tsx:33-36 | Without a patient id every row is listed once. |
| Prescriptions.StatusBadge | src/components/prescriptions/PrescriptionList.tsx:91-97 | `active` gives default, `completed` gives secondary, anything else gives outline. |
| Prescriptions.Actions | src/components/prescriptions/PrescriptionList.tsx:124-137 | Buttons exist iff the prescription is active. None of them writes `active`. |
| Prescriptions.SetStatus | src/components/prescriptions/PrescriptionList.tsx:59-62 | Only the rows with that id get the new status. |
| Prescriptions.ActionIsFinal | src/components/prescriptions/PrescriptionList.tsx:124-137 | After an action the prescription offers no buttons, and its badge is no longer the default one. |
| Prescriptions.PrescriptionList.FetchPrescriptions | src/components/prescriptions/PrescriptionList.tsx:28-55 | Without a user or on error the list is kept. Otherwise it is the query's result. Loading ends. |
| Prescriptions.PrescriptionList.UpdateStatus | src/components/prescriptions/PrescriptionList.tsx:57-79 | The write is issued. Only on success is the list refetched. |
| Chat.BetweenSymmetric | src/components/chat/ChatWindow.tsx:47 | The conversation filter does not depend on which side asks. |
| Chat.Conversation | src/components/chat/ChatWindow.tsx:43-48 | The conversation holds exactly the messages between the two users, oldest first. |
| Chat.Appends | src/components/chat/ChatWindow.tsx:68-71 | A delivered message is appended iff it is addressed to the user. |
| Chat.AppendRuleIsNotTheConversation | src/components/chat/ChatWindow.tsx:47-71 | A third user's message to the user is appended though outside the conversation. The user's own message is in the conversation but not appended. |
| Chat.CanSend | src/components/chat/ChatWindow.tsx:86 | Sending needs a non-blank text and a known user. |
| Chat.Outgoing | src/components/chat/ChatWindow.tsx:88-93 | The row carries the sender, the receiver and the text as typed. The appointment id is null when absent or empty. |
| Chat.Window.GetUser | src/components/chat/ChatWindow.tsx:32-38 | A signed-in user is remembered. |
| Chat.Window.Load | src/components/chat/ChatWindow.tsx:40-79 | Nothing happens until both users are known. Then the conversation is loaded (an error keeps the list) and the subscription starts. |
| Chat.Window.Deliver | src/components/chat/ChatWindow.tsx:59-73 | The row lands in the table. It is appended to the list iff subscribed and addressed to the user. |
| Chat.Window.SendMessage | src/components/chat/ChatWindow.tsx:85-100 | A blank text or unknown user does nothing. A successful insert writes the row and clears the input. A failed one keeps everything. |
| MedicalHistory.TextOrEmpty | src/components/medical/MedicalHistory.tsx:51-59 | A null text shows as empty, and any stored text as itself. |
| MedicalHistory.Normalize | src/components/medical/MedicalHistory.tsx:49-65 | The form is filled from a stored row with null texts shown as empty and null flags as false (the allergies, blood type, heart-disease and smoker fields are stated here; the others through `NullRowLoadsEmpty` and `SaveThenLoad`). |
| MedicalHistory.FlagOrFalse | src/components/medical/MedicalHistory.tsx:60-64 | A flag is set iff it is stored as true. |
| MedicalHistory.SaveThenLoad | src/components/medical/MedicalHistory.tsx:49-91 | Saving a form and loading the saved row gives back the same form. |
| MedicalHistory.NullRowLoadsEmpty | src/components/medical/MedicalHistory.tsx:49-65 | A row of nulls loads as the empty form. |
| MedicalHistory.LoadSaveLoad | src/components/medical/MedicalHistory.tsx:49-91 | Loading, saving and loading again gives the first load. |
| MedicalHistory.Payload | src/components/medical/MedicalHistory.tsx:86-91 | The upsert carries the user's id and the form's fields. |
| MedicalHistory.Page.FetchMedicalHistory | src/components/medical/MedicalHistory.tsx:36-73 | Only a found row changes the form. No row, an error or no user keeps it. Loading ends. |
| MedicalHistory.Page.HandleSubmit | src/components/medical/MedicalHistory.tsx:75-102 | Nothing is written without a user. A successful upsert saves the form's payload. Saving ends. |
| Queries.OrderDescending | src/components/dashboard/PatientDashboard.tsx:32 | `order(..., { ascending: false })` returns a permutation of the rows in non-increasing key order. |
| Queries.Count | src/components/dashboard/AdminDashboard.tsx:44 | The count is the number of occurrences of the value (its multiplicity in the list). So it is at most the length, zero iff the value is absent, and equal to the length iff every element is the value. |
| Queries.FilterMultiplicity | src/components/dashboard/AdminDashboard.tsx:44 | `filter` keeps each element that satisfies the predicate as many times as it occurs, and drops every other element. |
| Strings.NullIfEmpty | src/components/medical/ImageUpload.tsx:83 | `x \|\| null` is null iff the text is empty, and otherwise keeps the text. |

## Left out

- Backend I/O is not modelled: the HTTP server, CORS, authentication sessions and the hosted client. Each query, insert, update, upsert, storage upload and RPC is an input saying whether it succeeded, returned an error or threw.
- Server-side RPC bodies are not part of this model: `assign_user_role`, `remove_user_role` and `promote_user_to_admin`. Row-level security is also out. Any deduplication or authorization they perform is invisible to the client code.
- There is no appointment status state machine and no auto-complete sweep. The client code enforces no transitions, so none is modelled. Any status may be written.
- NotificationPanel.Panel.MarkAllAsRead and Chat.Window.Load: every async handler is one atomic step, so interleavings at `await` points are not modelled. `markAllAsRead` sends the unread ids of the list before the await and then marks every item of the list at completion read, so a notification arriving during the request shows as read while its row stays unread. The chat window starts `fetchMessages()` without awaiting it and then subscribes, so a message appended in between is overwritten when the fetch completes.
- Booking.Page.HandleSubmit, AdminDashboard.PromoteRequest and AdminDashboard.Dashboard.Submit: the browser's own check of the `type="email"` and `required` inputs is not modelled. The browser refuses to submit a non-empty text that is not an address, so the handler never sees it; the model passes any non-empty email to the handler's own guard.
- Realtime channels are not modelled: subscribing and unsubscribing, and delivery order. Only the resulting list update (prepend or append) is modelled.
- Time and locale are abstracted.
  - `new Date()`, `Date.now()` and the reminder query's `now` are parameters.
  - `toLocaleDateString` is a function parameter.
  - `toISOString().split("T")[0]` is a parameter of the calendar drop.
  - Dates are integer minutes in one time zone, with no daylight-saving or calendar arithmetic.
- Calendar.DropThenReload holds only when the browser's zone is UTC. The drop writes `toISOString()`'s date, which is the UTC day. The reload parses that date as UTC midnight and then sets local hours and minutes on it. In a zone with a non-zero offset the reloaded event can land a day early, never late; the model uses one zone for both steps.
- Floating point is left out: the analytics revenue sum over payment amounts (`Number(p.amount)` and `reduce`) and its display.
- The email format rule inside the schema library is the parameter `isEmail`.
- Strings are sequences of Dafny `char`s, which are Unicode scalar values. JavaScript strings are sequences of UTF-16 code units, so a character outside the Basic Multilingual Plane (an emoji, say) has length 1 here and length 2 in the application.
  - Validation.TrimmedWithin: bounds count characters, not UTF-16 code units. Text holding astral characters can differ in acceptance: a one-emoji name passes the 2-character minimum in the application and fails it here. The same holds for every schema built on it (ParseSignUp, ParseSignIn, ParseSymptoms and the optional fields) and for the unmeasured `password` bounds.
  - Strings.Preview: `slice(0, n)` is taken in characters, so it never splits a surrogate pair as the application's slice can.
  - `trim` is modelled on the ASCII whitespace plus NBSP, BOM, LS and PS. Other Unicode space separators are not covered.
  - `toLowerCase` is modelled on ASCII letters only.
  - `Number(...)` is modelled for blank text and runs of decimal digits. Signs, decimals, exponents and hex are read as NaN.
- The symptom checker's 2-second timer is a queue of pending analyses fired by `TimerFires`. Real elapsed time is not modelled.
- The image preview's data URL is an opaque parameter. Neither the file reader nor the file contents are modelled.
- Messages the reminder dispatcher logs and toasts shown anywhere are not modelled. Rendering, CSS and navigation history are left out too (only the last route is kept).
- The profile lookup in the reminder dispatcher is only a call that may throw. Its result is never used by the code.
- Sorting ties: `order(...)` is modelled as some sorted permutation. The database's tie order is not fixed by the code and is not modelled.
- The role-management profile query's `order("full_name")` is not modelled. The model takes the profiles in the order the query returns them.
- MedicalHistory.Page.HandleSubmit: the upsert's conflict resolution on the backend is not modelled. The model records the payload sent.
- ReviewForm.Form.SetText: the textarea's 500-character `maxLength` is a browser limit and is not enforced by the model.
- Validation.ParseSignUp: idempotence of the whole sign-up form is not proved. Idempotence is proved for each field rule (`TrimmedWithinIdempotent`, `OptionalWithinIdempotent`), and for the sign-in, booking and symptom schemas.
- MedicalHistory.Normalize and MedicalHistory.Payload state only some fields in their own contracts. The full field-by-field behaviour is stated by `SaveThenLoad`, `NullRowLoadsEmpty` and `LoadSaveLoad`.
- Files that only lay out other components or insert one row are not part of this model: Index, MedicalRecords, Waitlist, Analytics, CalendarView, VideoConsultation and Payments pages, PrescriptionForm, WaitlistForm, TreatmentPlanForm and PaymentForm. Also out: the image gallery (signed URLs, downloads), video calls (media devices), and the AI recommendation proxy, an external model call with a floating-point confidence.
- The code marks a reminder sent even when its notification insert returned an error. An error is only logged, while a throw skips the update. A notify-before-mark guarantee is therefore not modelled; `MarkedWithoutNotification` states the behaviour of the code.
- The symptom checker page checks only that the description is not blank. It does not apply the 10-character minimum of the symptom schema; `ShortDescriptionAnalyzed` states this.
